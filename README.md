# Lab 1 web pages — a Dafny model

This project models the logic of the four browser pages of lab 1:

- **Calculator** (`lab1/lab1_1`). It reads x, y and z from three inputs and evaluates
  S = (x − 2.24·y·z/x − 5)/(x − y + 1.6·z) + 12·x. Before either division it
  throws a RangeError if the divisor is zero. Input errors are a
  ReferenceError for a missing field and a TypeError for a non-finite number.
  The catch block turns the thrown error into a prefixed message.
- **Data sum** (`lab1/lab1_2`). It fetches a text file and splits it on white space. It demands
  exactly 11 finite numbers a₁..a₁₁. It then sums cos(2aᵢ)/(1 − sin(2aᵢ)) in a
  loop that stops with a RangeError at the first term whose denominator is
  within 10⁻¹² of zero, or whose value is not finite.
- **Countries** (`lab1/lab1_3`). It loads an array of countries, keeps a copy sorted by name
  in a cache, and renders it as a numbered table of name and map link. It also
  filters the cache by a case-insensitive, trimmed query.
- **Sine plot** (`lab1/lab1_4`). It validates a point count (default 1200, at least 50) and
  maps plot coordinates on [−2π, 2π] × [−1, 1] to canvas pixels inside a
  40-pixel margin. It then draws the two axes and the path through the samples of sin.

Thrown errors are `Err(kind, info)` results. `kind` is the error's class, and
`instanceof` is modelled by `JsRuntime.InstanceOf`. `info` says what the message reports.

Numbers are reals. A value that JavaScript would hold as NaN or ±Infinity is
`NonFinite`. Several things the pages call are not defined by the model and are
passed in as function values instead:

- `Math.PI`, `Math.sin`, `Math.cos` and floating-point division (`HostMath`);
- the numeric-literal grammar of `Number(...)` and `parseFloat`;
- `toLowerCase`, given per character;
- `localeCompare`.

White space is concrete: the ECMA-262 WhiteSpace and LineTerminator code points.
So `trim`, `split(/\s+/)` and the rule that blank text converts to 0 are modelled exactly.

The countries page keeps state between events. That state (the cache, the table rows and the status
line) is the class `Countries.CountriesPage`, and its methods update it in
place. The two counting loops (the sum in the data page and `drawSin` in the plot
page) are `while` loops. Each is proved against a specification function (`PartialSum`, `Curve`),
and the properties of those functions are proved as lemmas.

## Model

| member | source | states |
|---|---|---|
| JsStrings.TrimStartSuffix | lab1/lab1_3/js/index.js:102 | the result is a suffix of the input, everything dropped is white space, and the result does not start with white space |
| JsStrings.TrimEndPrefix | lab1/lab1_3/js/index.js:102 | the result is a prefix of the input, everything dropped is white space, and the result does not end with white space |
| JsStrings.TrimSpec | lab1/lab1_2/js/index.js:46 | the result is a contiguous slice of the input with white space only on either side; it is empty exactly when the input is all white space; otherwise neither end is white space |
| JsStrings.TrimIgnoresPadding | lab1/lab1_3/js/index.js:102 | white space added on either side of a text does not change its trimmed form |
| JsStrings.SplitKeepsContent | lab1/lab1_2/js/index.js:46 | splitting on white-space runs loses no other character: the pieces, joined, are the text without its white space, and no piece holds white space |
| JsStrings.SplitRoundTrip | lab1/lab1_2/js/index.js:46 | the cuts fall exactly at the maximal white-space runs: one piece more than there are runs, every run is non-empty white space, and pieces and runs interleaved give the text back |
| JsStrings.SplitTrimmedHasNoEmptyPiece | lab1/lab1_2/js/index.js:46 | a text that neither starts nor ends with white space splits into non-empty pieces only |
| JsStrings.WhiteSpaceTextIsOnePiece | lab1/lab1_2/js/index.js:46 | an empty or blank text trims and splits into a single empty piece |
| JsStrings.StringToNumber | lab1/lab1_1/js/index.js:11 | empty or blank text converts to 0; any other text converts as its trimmed form does |
| JsStrings.IncludesEmpty | lab1/lab1_3/js/index.js:107 | every string includes the empty string |
| SingleFormula.Num | lab1/lab1_1/js/index.js:4-18 | a ReferenceError naming the id exactly when the element is missing, a TypeError naming the id exactly when its text does not convert to a finite number, otherwise that number; a blank field reads as 0 |
| SingleFormula.ReadInputs | lab1/lab1_1/js/index.js:25-27 | x, y and z are read in that order: success exactly when all three read, and otherwise the error of the first field that fails, which is a ReferenceError or a TypeError |
| SingleFormula.FormulaClearsDivisors | lab1/lab1_1/js/index.js:38 | S solves the formula with its divisions cleared: (S − 12x)·(x − y + 1.6z)·x = x² − 2.24yz − 5x |
| SingleFormula.Calculate | lab1/lab1_1/js/index.js:23-38 | input errors pass through unchanged; RangeError(x = 0) exactly when x is 0; RangeError(denominator = 0) exactly when x ≠ 0 and x − y + 1.6z = 0; otherwise the value of the formula. A RangeError implies the inputs read |
| SingleFormula.BlankXIsZeroDivisor | lab1/lab1_1/js/index.js:25-30 | a blank X field is not an input error: once Y and Z read, the calculation stops at the x = 0 guard |
| SingleFormula.ExampleTwoOneOne | lab1/lab1_1/js/index.js:25-38 | x = 2, y = 1, z = 1 gives S = 1457/65 |
| SingleFormula.ErrorPrefix | lab1/lab1_1/js/index.js:49-54 | the class name for RangeError, TypeError and ReferenceError; the generic prefix for a plain Error and for a thrown non-Error |
| SingleFormula.CalculatorView | lab1/lab1_1/js/index.js:43-58 | the result is shown exactly when the calculation succeeds; otherwise the error is shown with its prefix and its message |
| DataSum.Tokens | lab1/lab1_2/js/index.js:46 | blank text gives one empty token; other text gives non-empty tokens free of white space which, joined, are the text's non-white-space characters in order; there is one token more than the white-space runs of the trimmed text, and tokens and runs interleaved give the trimmed text back |
| DataSum.GetData | lab1/lab1_2/js/index.js:40-59 | a failed response is an Error with its status; then a token count other than 11 is a RangeError reporting the count; then a TypeError exactly when some value is not finite; success gives the 11 values in file order |
| DataSum.BlankFileCountsOne | lab1/lab1_2/js/index.js:46-51 | an empty or blank file is rejected as holding one value |
| DataSum.Summation | lab1/lab1_2/js/index.js:72-95 | success exactly when all 11 terms have a value, and then the sum of the terms in loop order; otherwise a RangeError at the first index whose term fails, naming that index (1-based), and also aᵢ when the denominator is what failed |
| DataSum.ErrorPrefix | lab1/lab1_2/js/index.js:104-109 | the class name for RangeError, TypeError, ReferenceError and a plain Error; the generic prefix only for a thrown non-Error |
| DataSum.PrefixesDifferOnlyForPlainError | lab1/lab1_2/js/index.js:104-109 | this page and the calculator page label an error differently exactly when it is a plain Error |
| DataSum.Calculate | lab1/lab1_2/js/index.js:63-113 | the sum is shown exactly when the data is valid and every term has a value; a data error is shown with its own prefix and message; any later failure is shown as a RangeError about the first term without a value, naming its 1-based index, and also aᵢ when the denominator is what failed |
| DataSum.ExactDivisionSum | lab1/lab1_2/js/index.js:76-95 | with exact division the finiteness guard never fires: a term fails exactly when its denominator is within the tolerance of zero, and otherwise the loop's sum equals the closed formula's sum |
| Countries.SafeCountryName | lab1/lab1_3/js/index.js:29-31 | `name.common` when the entry, its name and its common name all exist, and "Unknown" otherwise; an empty name is kept |
| Countries.SafeMapUrl | lab1/lab1_3/js/index.js:34-36 | `maps.googleMaps` when the entry, its maps and the URL all exist, and the empty string otherwise |
| Countries.FilterByName | lab1/lab1_3/js/index.js:106-108 | the result is a subsequence of the list, every kept entry's lower-cased name contains the query, and each matching entry is kept as often as it occurs |
| Countries.FilterByNameIdempotent | lab1/lab1_3/js/index.js:106-108 | filtering the filtered list again by the same query changes nothing |
| Countries.FilterByEmptyQuery | lab1/lab1_3/js/index.js:104-108 | the empty query keeps the whole list |
| Countries.Filtered | lab1/lab1_3/js/index.js:101-111 | a blank query renders the whole cache, and the shortcut agrees with filtering by the trimmed, lower-cased query |
| Countries.FilteredIdempotent | lab1/lab1_3/js/index.js:101-111 | applying the same filter text to its own output changes nothing |
| Countries.FilteredIgnoresPadding | lab1/lab1_3/js/index.js:102 | white space around the filter text does not change the rows shown |
| Countries.FilteredIgnoresCase | lab1/lab1_3/js/index.js:102-107 | filter texts that differ only in letter case show the same rows |
| Countries.TrimLowerCaseCommute | lab1/lab1_3/js/index.js:102 | when lower-casing maps white space to white space and nothing else to white space, trimming and lower-casing commute |
| Countries.InsertByName | lab1/lab1_3/js/index.js:128-130 | one insertion step of the sort adds exactly the inserted entry |
| Countries.InsertByNameSorted | lab1/lab1_3/js/index.js:128-130 | inserting into a list sorted by name keeps it sorted |
| Countries.SortByName | lab1/lab1_3/js/index.js:128-130 | the sorted copy holds exactly the payload's entries (as a multiset) and is ordered by name |
| Countries.Rows | lab1/lab1_3/js/index.js:90-95 | one row per entry, numbered from 1 in list order, with the entry's safe name, and a link cell exactly when its map URL is not empty |
| Countries.CountriesPage.constructor | lab1/lab1_3/js/index.js:11 | the cache and the table start empty |
| Countries.CountriesPage.AddRow | lab1/lab1_3/js/index.js:49-87 | appends exactly one row, with a link for a non-empty URL and a dash otherwise; the cache and the status are unchanged |
| Countries.CountriesPage.RenderTable | lab1/lab1_3/js/index.js:90-98 | the table is replaced by the rows of the list, the status reports the list's length, and the cache is unchanged |
| Countries.CountriesPage.ApplyFilter | lab1/lab1_3/js/index.js:101-111 | the table shows the filtered cache (the whole cache for a blank or missing filter text), and the cache is unchanged |
| Countries.CountriesPage.LoadCountries | lab1/lab1_3/js/index.js:114-136 | the table is cleared first. A failed response or a body that is not an array leaves the cache as it was and reports an Error with the status or a TypeError. Otherwise the cache becomes the payload sorted by name and is rendered |
| SinePlot.MapToCanvas | lab1/lab1_4/js/index.js:31-46 | the plot range fills the canvas between the margins: X_MIN and X_MAX go to the left and right margins, Y_MIN to the bottom one and Y_MAX to the top one; px is an affine function of x alone and py of y alone, at the scales (w − 80)/4π and (h − 80)/2 |
| SinePlot.MapToCanvasMonotone | lab1/lab1_4/js/index.js:36-43 | on a canvas wider and taller than its margins, px strictly increases with x, py strictly decreases as y increases, and neither depends on the other coordinate |
| SinePlot.OriginAtCentre | lab1/lab1_4/js/index.js:31-46 | the origin maps to the centre of the canvas |
| SinePlot.Axes | lab1/lab1_4/js/index.js:49-73 | the x axis runs horizontally through the centre from the left margin to the right one, and the y axis vertically through the centre from the bottom margin to the top one |
| SinePlot.PointCount | lab1/lab1_4/js/index.js:112-118 | a missing canvas or context is an Error, checked before the count; a missing input gives 1200; otherwise success exactly when the text converts to a finite number of at least 50, and then the count is that number, and a RangeError if not |
| SinePlot.Iterations | lab1/lab1_4/js/index.js:93 | the number of times the loop runs is the least natural number not below the count |
| SinePlot.IterationsCount | lab1/lab1_4/js/index.js:93 | the loop test holds for an index exactly when the index is below that number of runs |
| SinePlot.Samples | lab1/lab1_4/js/index.js:93-96 | one abscissa per loop run, at least one, the first at X_MIN, strictly increasing, the i-th at fraction i/(n − 1) of the x range |
| SinePlot.SampleXStrictlyIncreasing | lab1/lab1_4/js/index.js:95-96 | a later index gives a strictly larger abscissa |
| SinePlot.SamplesSpanRange | lab1/lab1_4/js/index.js:93-96 | for a whole count n there are n samples, the last one is exactly X_MAX, and all lie in [X_MIN, X_MAX] |
| SinePlot.FractionalCountOvershoots | lab1/lab1_4/js/index.js:93-116 | a fractional count of at least 50 passes validation, and its last sample lies beyond X_MAX |
| SinePlot.Curve | lab1/lab1_4/js/index.js:93-103 | one path command per sample: a move to the point above X_MIN first, then a line to the canvas point of sin over each later sample |
| SinePlot.CurveRunsLeftToRight | lab1/lab1_4/js/index.js:93-103 | on a canvas larger than its margins the path's points run strictly left to right |
| SinePlot.DrawSin | lab1/lab1_4/js/index.js:85-107 | the loop issues exactly the curve's path |
| SinePlot.Draw | lab1/lab1_4/js/index.js:110-133 | a failed check draws nothing and reports its error; otherwise the axes and the curve for the validated count are drawn |

## Left out

- Fetching, `res.text()`, `res.json()` and the network. A response is a parameter reduced to `ok`, `status` and the body: text in the data page, and an array or any other JSON value in the countries page.
- The DOM. Element lookups of the result, status and table body elements, their `null` guards, CSS class names, row striping, `showInputs`, the data link, event listeners and the start-up calls are not modelled. Some lookups are modelled because the page reacts to a missing element: the calculator's input fields are a map from id to text, so a missing field is a ReferenceError; the canvas and its 2D context are the flag `canvasReady` of `SinePlot.PointCount`; the points input (`SinePlot.PointCount`) and the filter input (`Countries.CountriesPage.ApplyFilter`) are `Option`s, so a missing one is modelled.
- Canvas rendering. Only the coordinates and the path commands are modelled. Stroke styles, `save`/`restore`, `clearRect` and the "y = sin(x)" title label are not.
- The `await new Promise(r => setTimeout(r, 0))` pauses and the transient "loading" messages. Each handler is modelled as one step from its inputs to what it finally shows.
- Message texts. An error's message is represented by what it reports (the field id, the HTTP status, the count, the index and value), not by its Ukrainian wording. Results are shown as reals, without `toFixed(7)`.
- IEEE-754 arithmetic. Numbers are reals. In the calculator, division is exact, because the page guards both divisors. Overflow to Infinity of an otherwise defined S is not modelled.
- DataSum.Summation: the sum adds reals, without rounding. Division and `Math.sin`/`Math.cos` are host functions, so a non-finite term remains possible.
- The grammar of numeric literals. `Number(...)` is modelled as: blank text gives 0, otherwise a host parser applied to the trimmed text. `parseFloat` is a host function.
- `toLowerCase` is a per-character host map. Mappings that change a string's length (such as 'İ') are not modelled.
- `localeCompare` is a host comparison, assumed to be a total preorder on names. The collation itself is not modelled.
- Countries.SortByName: states that the result is a sorted permutation of the payload, but not that entries with equal names keep their payload order, which the stable `Array.prototype.sort` also guarantees.
- Countries.Country: a `name.common` or `maps.googleMaps` that is present but is not a string is not modelled. A non-string name would make `toLowerCase` throw. The row tests the URL for truthiness, so a non-string URL such as `0` or `false` would give a dash and any other non-string value a link; in the model the URL is a string, and only the empty string gives a dash.
