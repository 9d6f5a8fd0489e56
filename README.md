# Log canvas plotting pipeline

This project models the data pipeline behind the log canvas of the log viewer
(`src/components/Log/LogCanvas.tsx`). This is what the canvas does with a log
and a field selection before it hands anything to the SVG layer:

1. It keeps only the records whose `type` is `field`.
2. It scans those records once. For every selected label it builds a plottable
   field descriptor. The descriptor holds a running minimum and maximum, both
   starting at 0, plus the settings resolved from the selection entry: scale,
   transform, units, format and colour.
3. It reads each record's time stamp (`xValue`) and each selected field's
   value (`yValue`). Both fall back to 0.
4. It builds the time axis, which maps `[0, latest time]` onto `[0, width]`
   and may be rescaled by the zoom state. It builds one inverted value axis per
   field, which maps `[min, max]` onto `[height, 0]`. It then produces one
   point list per selected field, with one vertex per record.
5. It draws each point list with the field's name as key and the descriptor's
   colour as stroke, falling back to red.

Files and modules:

- `log_entries.dfy` (`LogEntries`) holds the records, the selection entries,
  the filter and the two accessors.
- `range_scan.dfy` (`RangeScan`) holds the range scan in three layers:
  - `Plottable` is the declarative result. Each descriptor's settings come
    from the label's first selection entry. Its range is the fold of the
    record values, seeded at 0.
  - `Scan` is the nested-loop computation step by step.
  - `ScanRanges` is the loop itself. It runs over `PlottableField` objects and
    updates their `min` and `max` fields in place.

  `ScanIsPlottable` proves the first two layers equal, and `ScanRanges` is
  proved against both.
- `scales.dfy` (`Scales`) holds d3 linear scales, the latest time stamp, and
  the time and value axes.
- `log_canvas.dfy` (`LogCanvas`) holds the point lists, the stroke colour, the
  drawn paths, the whole pipeline as the method `Draw`, and a worked example.

Two inputs become parameters:

- The colour callback `hsl` (`LogCanvas.tsx:69-72`) is the parameter
  `hsl: (nat, nat) -> string`. The parameter stands for the whole callback,
  including its call into `colorHsl` and its string template. It is called as
  `hsl(index, 5)`.
- The zoom state is a `ZoomTransform`, known only through its `rescaleX`
  function.

Numbers are exact reals.

Behaviour the model keeps exactly as the code has it:

- Ranges are seeded at 0. A field whose values are all positive therefore gets
  the range `[0, max]`, not `[smallest, largest]`
  (`RangeScan.PlottableBounds`, `LogCanvas.PositiveFieldTouchesBottomAtZero`).
- A record without a label compares `undefined`, which is false both ways, so
  it leaves the range alone. Given the 0 seed, this is the same as reading it
  as 0 (`RangeScan.MissingReadsAsZero`).
- With no field records the scan creates no descriptor at all, and every path
  is stroked red (`LogCanvas.StrokeColorOfScan`). The render test looks at the
  unfiltered log. A log whose records are all of other kinds therefore still
  draws one path per selection entry. Each such path is empty and red
  (`LogCanvas.OnlyOtherRecordsDrawEmptyRedPaths`).
- A label selected twice keeps the settings and colour of its first entry.
- Worked example: values 1000, 2000 and 1500 at times 0, 1 and 2, drawn on a
  100 by 50 viewport. The range is `[0, 2000]` and the first vertex sits at
  height 50 + (1000 − 0) / (2000 − 0) · (0 − 50) = 25 (`LogCanvas.RpmExample`).

Each source operation is modelled by a function without a contract of its
own. The members in the "Model" table below state what these functions do:

| source operation | modelling function | covered by |
|---|---|---|
| `xValue` | `LogEntries.XValue` | `XValueDefaults` |
| `yValue` | `LogEntries.YValue` | `MissingFieldWarning` |
| `fieldsToPlot` | `RangeScan.Plottable` (declarative) and `RangeScan.Scan` (step by step) | `ScanIsPlottable`, `ScanRanges` and the `Plottable…` lemmas |
| `xScale` | `Scales.XScale` | `XScaleUnzoomed…` |
| `yScale` | `Scales.YScale` | `YScaleInverted` |
| `linesRaw` | `LogCanvas.Lines` | `LinesShape` |
| stroke lookup | `LogCanvas.StrokeColor` | `StrokeColorOfScan` |
| rendered paths and keys | `LogCanvas.Render` and `LogCanvas.PathKey` | `Draw`, `OnlyOtherRecordsDrawEmptyRedPaths` |

## Model

| member | source | states |
|---|---|---|
| LogEntries.Filtered | src/components/Log/LogCanvas.tsx:74-76 | the filtered records are exactly the records of the log whose `type` is `field`, and there are no more of them than in the log |
| LogEntries.FilteredAppend | src/components/Log/LogCanvas.tsx:74-76 | filtering a concatenation is the concatenation of the filtered parts, in order |
| LogEntries.FilteredPosition | src/components/Log/LogCanvas.tsx:74-76 | a field record at index i of the log appears in the output at the position given by the number of field records before it |
| LogEntries.FilteredMonotone | src/components/Log/LogCanvas.tsx:74-76 | a field record that comes earlier in the log gets a strictly smaller output position than any later one, so relative order is preserved |
| LogEntries.FilteredIdempotent | src/components/Log/LogCanvas.tsx:74-76 | filtering an already filtered log changes nothing |
| LogEntries.FilteredNone | src/components/Log/LogCanvas.tsx:74-76 | a log with no record of type `field` filters to the empty sequence |
| LogEntries.XValueDefaults | src/components/Log/LogCanvas.tsx:111 | the time accessor is 0 exactly when the stamp is missing or 0, and otherwise it is the stamp |
| LogEntries.MissingFieldWarning | src/components/Log/LogCanvas.tsx:112-119 | a diagnostic is reported exactly when the label is absent from the record, and then the value accessor returns 0; without a diagnostic it returns the stored value |
| RangeScan.FirstIndex | src/components/Log/LogCanvas.tsx:83-96 | the index returned carries the label, and no earlier selection entry carries it |
| RangeScan.MaxSeenBounds | src/components/Log/LogCanvas.tsx:86-100 | the scanned maximum is at least 0 and at least every present value, and it is either 0 or one of those values |
| RangeScan.MinSeenBounds | src/components/Log/LogCanvas.tsx:86-104 | the scanned minimum is at most 0 and at most every present value, and it is either 0 or one of those values |
| RangeScan.VisitEntryAt | src/components/Log/LogCanvas.tsx:83-105 | one record's pass over the first k selection entries, seen from one label: the label has a descriptor iff it had one or one of those entries carries it; if an entry carries it, its min and max were compared against the record's value; otherwise it is untouched; creation settings always come from the label's first entry |
| RangeScan.ScanIsPlottable | src/components/Log/LogCanvas.tsx:79-109 | the nested-loop scan, step by step, yields exactly the declarative descriptors: no keys for no records, and otherwise one descriptor per selected label with first-entry settings and the 0-seeded min and max of its values |
| RangeScan.PlottableKeys | src/components/Log/LogCanvas.tsx:80-108 | the descriptor keys are exactly the selected labels when there are records; the map is empty when there are none |
| RangeScan.PlottableBounds | src/components/Log/LogCanvas.tsx:86-104 | every descriptor has min ≤ 0 ≤ max, every present value of its label lies within [min, max], and each bound is 0 or an observed value |
| RangeScan.PlottableSettings | src/components/Log/LogCanvas.tsx:86-96 | a descriptor's colour, units and format come from the lowest-index selection entry with its label; a falsy scale becomes 1 and a falsy transform becomes 0, and other values are kept |
| RangeScan.MissingLeavesRange | src/components/Log/LogCanvas.tsx:84-104 | a record without the label leaves its min and max unchanged |
| RangeScan.MissingReadsAsZero | src/components/Log/LogCanvas.tsx:84-104 | filling every missing value of a label with 0 gives the same min and max as skipping it |
| RangeScan.PlottableField.constructor | src/components/Log/LogCanvas.tsx:87-95 | a new descriptor starts at min = max = 0, with the defaulted scale and transform, the units and format copied, and the given colour |
| RangeScan.PlottableField.Observe | src/components/Log/LogCanvas.tsx:98-104 | a present value above max replaces max, one below min replaces min; a missing value changes neither |
| RangeScan.Ensure | src/components/Log/LogCanvas.tsx:86-96 | an existing descriptor is kept; a missing one is created fresh from the entry with colour hsl(index, 5); no other descriptor changes |
| RangeScan.ObserveAt | src/components/Log/LogCanvas.tsx:98-104 | comparing a value against one label's descriptor changes that descriptor's min and max only; all other descriptors keep their current values |
| RangeScan.VisitObjects | src/components/Log/LogCanvas.tsx:83-105 | one inner-loop step on the descriptor objects has the effect of the step specification, and each label keeps its own object |
| RangeScan.ScanRanges | src/components/Log/LogCanvas.tsx:79-109 | the loop returns fresh, distinct descriptor objects whose values equal both the step-by-step scan and the declarative descriptors |
| Scales.ApplyEnds | src/components/Log/LogCanvas.tsx:121-143 | a linear scale with a proper domain sends the domain ends to the range ends |
| Scales.ApplyAntiMonotone | src/components/Log/LogCanvas.tsx:140-142 | a scale whose range runs downwards never sends a larger value higher |
| Scales.ApplyWithin | src/components/Log/LogCanvas.tsx:140-142 | with a downward range, a value inside the domain lands inside the range |
| Scales.ApplyWithinUpwards | src/components/Log/LogCanvas.tsx:122-124 | with an upward range, a value inside the domain lands inside the range |
| Scales.MaxTime | src/components/Log/LogCanvas.tsx:123 | the latest time stamp is undefined exactly when there are no field records |
| Scales.MaxTimeBounds | src/components/Log/LogCanvas.tsx:123 | the latest time stamp is at least every record's stamp and equals some record's stamp |
| Scales.XScaleUnzoomedEnds | src/components/Log/LogCanvas.tsx:121-133 | without zoom, the time axis is [0, latest] onto [0, width]: 0 maps to 0 and the latest stamp maps to width |
| Scales.XScaleUnzoomedWithin | src/components/Log/LogCanvas.tsx:121-133 | without zoom and with non-negative stamps, every record's x lies in [0, width] |
| Scales.YScaleInverted | src/components/Log/LogCanvas.tsx:137-143 | a field's axis sends min to height and max to 0, and a larger value never plots lower |
| LogCanvas.LinesShape | src/components/Log/LogCanvas.tsx:136-148 | there is one point list per selection entry, in selection order; each has one vertex per record, and vertex j is record j's time and value on the axes |
| LogCanvas.YValueWithinDescriptor | src/components/Log/LogCanvas.tsx:112-143 | every value the accessor reads for a selected field, a missing one read as 0 included, lies within that field's scanned range |
| LogCanvas.PointsInViewport | src/components/Log/LogCanvas.tsx:121-148 | zoomed or not, every vertex has 0 ≤ y ≤ height, because the value axes do not depend on the zoom; without zoom, and with non-negative stamps and width, also 0 ≤ x ≤ width |
| LogCanvas.PositiveFieldTouchesBottomAtZero | src/components/Log/LogCanvas.tsx:86-143 | a field whose values are all non-negative, with one positive, gets min 0: the value 0 plots at the bottom edge and its max at the top edge |
| LogCanvas.StrokeColorOfScan | src/components/Log/LogCanvas.tsx:173 | a path is stroked red when there were no field records; otherwise it takes hsl of the label's first selection index |
| LogCanvas.Draw | src/components/Log/LogCanvas.tsx:74-175 | the pipeline draws nothing for an empty log and one path per selection entry otherwise: each keyed by the entry's name, with one vertex per filtered record, and all vertices vertically inside the viewport whatever the zoom |
| LogCanvas.OnlyOtherRecordsDrawEmptyRedPaths | src/components/Log/LogCanvas.tsx:74-175 | a log that is not empty but has no field record draws one path per selection entry; each path is keyed by the entry's name, has no vertices and is stroked red |
| LogCanvas.RpmScan | src/components/Log/LogCanvas.tsx:74-124 | for the three-record RPM log the filter keeps every record, the range is [0, 2000] and the latest stamp is 2 |
| LogCanvas.RpmExample | src/components/Log/LogCanvas.tsx:121-148 | on a 100 by 50 viewport, the RPM log's path runs through (0, 25), (50, 0) and (100, 12.5) |

## Left out

- d3 zoom behaviour is not modelled: the scale-extent clamping to [1, 1000], the pan extent and gesture handling. The zoom state is a parameter known only through `rescaleX`, and `ZoomTransform` does not constrain that function.
- The assignment of the zoomed domain back onto the discarded temporary time scale is not modelled. Nothing reads that scale afterwards.
- `colorHsl` is not part of this model. The `hsl` callback's string template is not modelled either: the fixed saturation 90% and lightness 50%, and the choice of the first component of `colorHsl(0, allFields - 1, fieldIndex)` as hue. The model keeps only the callback's arguments, `(index, 5)`, and treats its result as an opaque string. Formatting a JavaScript number into the template would need number-to-string conversion, which the model does not have.
- For a one-point domain, d3 sends every value to the middle of the range, and `LinearScale.Apply` does the same. `Scales.ApplyWithin` and `Scales.ApplyWithinUpwards` rely on this midpoint for that case. Through them, so do the vertical bound in `LogCanvas.PointsInViewport` and `LogCanvas.Draw` for a field whose range is [0, 0], and `Scales.XScaleUnzoomedWithin` when every stamp is 0.
- With no field records, d3's `max` is undefined. d3 then builds the time axis over the domain [0, NaN]. The model returns `None` for the axis instead, and gives every point list no vertices. This matches the source, where `line()` over no records has no vertices either. What is drawn is decided separately, by the unfiltered log (see `LogCanvas.OnlyOtherRecordsDrawEmptyRedPaths`).
- JavaScript floating point is not modelled: no rounding, NaN or infinity. Arithmetic is exact over reals.
- Records whose values are strings are not modelled, and neither are labels that collide with the `type` key or with object-prototype names. Record values are numbers keyed by label.
- `console.error` is not modelled as output. Its condition and message are the function `MissingFieldWarning`.
- React memoisation, `useEffect` wiring, the `lines` state set by an effect, and SVG output are not modelled. The model treats one render as a synchronous computation from the inputs to the drawn paths.
- d3 `line()` path strings are not modelled. Paths are sequences of device-space points.
- The 5-field palette size is not a limit in the code, so the model does not enforce one. `MaxFields` is only passed to the colour function.
- `units || ''` and `format || ''` are the identity on strings. The model copies both unchanged.
- `XScaleUnzoomedEnds` requires a latest stamp other than 0, because mapping the domain ends is only meaningful for a proper domain.
