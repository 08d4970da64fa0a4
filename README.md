# ml-dashboard, modelled in Dafny

ml-dashboard is a live training dashboard. A training loop pushes samples
into per-trace buffers through `DashPlotter.add_data`. The plotter tracks
each trace's running minimum and maximum, and raises a one-shot "changed"
flag when one of them moves. A periodic Dash callback turns the data that is
new since a per-trace checkpoint into an additive Plotly patch:
- it extends the main lines and error bands;
- it moves the end-point markers and the extremum lines;
- when an extremum changed, it re-derives zero-anchored y-axis limits.

This project models that incremental update engine and the pieces around it:
- the figure builder that assigns every trace and annotation its positional id;
- the id registry;
- the configuration and store containers;
- the throughput meter;
- the scheduled batch sampler of the training-loop script;
- the colour-string parser;
- the two update prototypes and the test app's refresh callback;
- the first generation of the plotter and figure builder (`ml_dashboard/`).

Every operation is proved against a specification. A loop or an in-place
update is a `method` whose `ensures` ties the result or the new state to a
function of the inputs. The promised properties are then proved about those
functions as lemmas.

## Layout

| file | module | what it models |
|---|---|---|
| py.dfy | `Py` | Python and numpy idioms: `Result`/`Option`, the exceptions raised, `float` with ±inf, the `False`/int/str union with Python's `==`, clamped slices, negative indices, `linspace`, `min`/`max`/mean |
| patch.dfy | `Patches` | a Dash `Patch` as the list of edits it records, and what its data edits do to a trace |
| interp.dfy | `Interp` | `idx_next_smaller` (abstract contract), `np.searchsorted(...) - 1`, and `np.interp` as a piecewise-linear specification |
| ranges.dfy | `AxisRanges` | `determine_single_range` and `determine_mixed_range` (in place on two arrays) |
| setupconfig.dfy | `SetupConfig` | the frozen `TraceConfig`/`GraphConfig` defaults and `has_subplots` |
| datastore.dfy | `DataStore` | the mutable `TraceStore`, `ProcsStore`, `GraphStore` and `DataStore` classes |
| name2id.dfy | `Name2Id` | `TraceN2Id`/`GraphN2Id`: role registration from a counter shared by a graph's traces |
| flexgraph.dfy, flexgraphprops.dfy | `Flexgraph`, `FlexgraphProperties` | `make_flexgraph`: trace and annotation insertion, role registration, axis assignment |
| callbacks.dfy, callbackprops.dfy | `Callbacks`, `CallbackProperties` | `callback_generate_flexgraph_patch` and `callback_update_proc_speed` |
| plottercore.dfy | `PlotterCore` | what both plotters share: subplot flags, `_make_store`, one `add_data` step |
| plotter.dfy | `Plotter` | the current `DashPlotter` with its `batchtimer` |
| legacyplotter.dfy | `LegacyPlotter` | the first `DashPlotter` |
| legacyflexgraph.dfy, legacyflexgraphprops.dfy | `LegacyFlexgraph`, `LegacyFlexgraphProperties` | the first `make_flexgraph`, with ids taken from `len(n2t[g])` |
| prototypes.dfy | `Prototypes` | both `update_graph_patched` prototypes |
| testapp.dfy | `TestApp` | the test app's `update_graph_patched` |
| sampler.dfy | `Sampler` | `ScheduledBatchSampler` |
| colors.dfy | `Colors` | `adjust_alpha`, with `int`/`float` parsing of the rgb/rgba components |

## How the model reads the code

- **Numbers.** Values are `real`. `float("inf")` and `float("-inf")` are the
  `Ext` values `PosInf`/`NegInf`. Integers are unbounded, as in Python.
- **Square roots.** `** 0.5` has no Dafny counterpart. `determine_mixed_range`
  takes the geometric mean as a parameter `rbar` with `rbar > 0` and
  `rbar * rbar == r1 * r2`. The callback takes a `sqrt` function and the
  proofs require it to be a square root.
- **Functions without a body here.** `mldashboard/utils/utils.py` is not part
  of this model. `determine_single_range` and `determine_mixed_range` follow
  their definitions in `_TEST_y_axis_ranges.py`. `idx_next_smaller` gets the
  contract its call sites describe: the index of the rightmost grid point at
  or below the query, or 0 when there is none. The concrete
  `np.searchsorted(s, q) - 1` of the first prototype and the test app is
  modelled separately. It is strict, and gives -1 below the first element.
  `Interp.WorkedExample` shows where the two differ: at a grid value.
- **The callback's store.** The callback imports store names that
  `mldashboard/containers/datastore.py` does not define. The callback's store
  is therefore the value `TraceData` with exactly the fields the callback
  reads.
- **The debug patch.** The callback builds a patch, then discards it and
  returns a two-edit debug patch that extends trace 0's x and y by `[0.5]`.
  `GenerateFlexgraphPatch` returns that debug patch and the checkpoint list,
  as the code does. The patch it built is kept in the outcome of `Cycle`, so
  that its properties can be stated. The checkpoint and flag changes the call
  made persist.
- **Which trace's extremum lines move.** The callback compares
  `showmin == trace_nr`, an int comparison, while `make_flexgraph` accepts
  only False or a "traceX" string and reads the trace from its last digit.
  As written, a string never equals a trace number, and False equals 0
  (`CallbackProperties.FalseSelectsTraceZero`), so the lines the builder drew
  never move. `Callbacks.LineUpdateAsWritten` keeps that comparison.
  `Callbacks.LineUpdate`, which the cycle runs, selects the trace whose digit
  `showmin` ends in (see "## Findings").
- **The range call's argument order.** The callback passes `(MIN, MAX)` into
  `determine_single_range(MAX, MIN, factor)`. As written, that raises
  ValueError whenever the data range is not all zero. The model keeps both
  versions: `CycleAsWritten` follows the code, and `Cycle`, which
  `GenerateFlexgraphPatch` runs, uses the corrected order (see "## Findings").
- **The first `make_flexgraph`.** It ends in `return fig`, and `fig` is bound
  only by the y-label helpers. With no y label, the model raises
  UnboundLocalError, as the code does. Two trace keys ending in the same digit
  ("trace1", "trace11") share their `n2t` keys. The later entries then
  overwrite the earlier ones with the dictionary's unchanged length
  (`LegacyFlexgraphProperties.CollidingKeysShiftIds`).
- **Which grid point the checkpoint names.** The comments at
  `mldashboard/dash/components/callbacks.py:70` and `:80` describe the new
  checkpoint as the latest grid point fully covered by raw data, and the
  lower raw bound as the point that just covers the first new grid point.
  Both read as "the last element at or below the query". For raw x up to 3
  over the grid `[0, 1.5, 3]`, that gives 2 (`Interp.WorkedExample`). The
  strict `searchsorted(s, q) - 1` of the first prototype and the test app
  gives 1 there: at a grid value it stops one index short
  (`Interp.StrictSearchAtGridValue`).
- **Shuffling, time and the CSS lookup.** The arrangement `random.shuffle`
  leaves is the parameter `order` of `Iter`: any permutation of the indices.
  `time.perf_counter()` is the parameter `now` of `Batchtimer`. matplotlib's
  colour-name lookup is the parameter `named` of `AdjustAlpha`.
- **Checkpoints** start at -1.

## Model

| member | source | states |
|---|---|---|
| Py.SliceBound | mldashboard/dash/components/callbacks.py:46-47 | a slice bound in range is kept, one past the end becomes the length, a negative one counts from the end, and one before the start becomes 0 |
| Py.PySlice | mldashboard/dash/components/callbacks.py:46-47 | on bounds inside the list `s[i:j]` is the Dafny slice, an end past the list is clamped to it, and an empty range gives [] |
| Py.PySliceClamps | mldashboard/dash/components/callbacks.py:46-47 | for any bounds, negative ones included, `s[i:j]` holds the elements from the clamped start up to the clamped end, none when the end is not past the start |
| Py.PyIndex | mldashboard/dash/components/callbacks.py:49-52 | `s[i]` reads from the end for negative i; outside the list it fails, always with IndexError |
| Py.Repeat | tests/run_training_loop.py:111 | `[v] * n` has max(n, 0) entries, all equal to v |
| Py.Linspace | mldashboard/containers/datastore.py:36-38 | `linspace(start, stop, num)` gives num values from start to stop, evenly spaced; a negative num raises ValueError |
| Py.LinspaceAscending | mldashboard/plotter.py:88 | over a non-negative extent, the grid is ascending and stays inside [start, stop] |
| Py.Min | _TEST_update_callb_prototypes.py:46 | `min` of a non-empty list is one of its elements and at most every element |
| Py.Max | _TEST_update_callb_prototypes.py:55 | `max` of a non-empty list is one of its elements and at least every element |
| Py.SumBounds | mldashboard/plotter.py:156 | n values within [lo, hi] sum to within [n·lo, n·hi] |
| Py.Mean | mldashboard/dash/components/callbacks.py:222 | the mean of a non-empty list lies between its least and its greatest element |
| Patches.Apply | mldashboard/dash/components/callbacks.py:46-52 | a patch with no edit of the field leaves it alone, and when the last edit of the field is an assignment the field becomes its values |
| Patches.ApplyConcat | mldashboard/dash/components/callbacks.py:46-60 | applying two patches in turn is applying their concatenation |
| Patches.ApplyExtensions | mldashboard/dash/components/callbacks.py:46-47 | any patch whose edits of the field are all extensions makes it grow by their values, in order |
| Interp.LastAtMost | mldashboard/dash/components/callbacks.py:70-75 | the rightmost of the first n elements at or below q, or 0 when none is |
| Interp.IdxNextSmaller | mldashboard/dash/components/callbacks.py:70-84 | the index of the latest grid point the query covers: rightmost element <= q, 0 when all exceed q |
| Interp.IdxNextSmallerMonotone | mldashboard/dash/components/callbacks.py:70-75 | a larger query never gives a smaller index, so checkpoints derived from growing data only advance |
| Interp.IdxNextSmallerExact | mldashboard/dash/components/callbacks.py:80-84 | on an ascending list, querying the last copy of an element gives its index |
| Interp.FirstAtLeast | _TEST_update_callb_prototypes.py:23 | the first element of s[k..] that is >= q, or the length when none is |
| Interp.SearchsortedMinusOne | _TEST_update_callb_prototypes.py:23 | `searchsorted(s, q) - 1`: the last element strictly below q, -1 when none is |
| Interp.StrictSearchAtGridValue | testapp.py:214 | the strict search stops one short of the inclusive one exactly at a grid value |
| Interp.InterpHoldsLeft | mldashboard/dash/components/callbacks.py:87-94 | below the first control point, `np.interp` holds the first value |
| Interp.InterpHoldsRight | mldashboard/dash/components/callbacks.py:87-94 | at and beyond the last control point, it holds the last value; there is no extrapolation |
| Interp.InterpBetween | mldashboard/dash/components/callbacks.py:87-94 | inside a segment, the result is that segment's linear blend |
| Interp.InterpAtControlPoint | mldashboard/dash/components/callbacks.py:87-94 | on strictly ascending abscissas, every control point is reproduced |
| Interp.InterpWithinValues | mldashboard/dash/components/callbacks.py:87-94 | the interpolant never leaves the range of the control values |
| Interp.InterpAll | _TEST_update_callb_prototypes.py:108-112 | ValueError for empty xp or unequal xp/fp lengths; otherwise one value per query |
| Interp.WorkedExample | _TEST_update_callb_prototypes.py:23-25 | for the grid [0, 1.5, 3] over raw points up to x = 3: the value at 1.5 is 3.0, the inclusive search gives 2 and the strict one 1 |
| AxisRanges.SingleRange | _TEST_y_axis_ranges.py:6-14 | ValueError exactly when MAX < MIN; otherwise the least and the greatest of the four candidates, so lo <= hi |
| AxisRanges.SingleRangeContains | _TEST_y_axis_ranges.py:12-13 | with factor >= 0, the range contains 0, MIN and MAX |
| AxisRanges.SingleRangeStraddles | _TEST_y_axis_ranges.py:12-13 | a zero-anchored data range gives lo < 0 < hi unless both ends are 0 |
| AxisRanges.SingleRangeExample | _TEST_y_axis_ranges.py:12-14 | MAX = 10, MIN = -2, factor = 0.1 gives [-2.2, 11] |
| AxisRanges.MixSideRatio | _TEST_y_axis_ranges.py:19-37 | after mixing with rbar, a range's ratio upper/(-lower) is rbar |
| AxisRanges.MixSideExpands | _TEST_y_axis_ranges.py:24-37 | no bound shrinks; only the lower bound moves when the ratio exceeds rbar, only the upper one when it falls short, neither when equal |
| AxisRanges.GeometricMeanSplits | _TEST_y_axis_ranges.py:19-37 | with rbar² = r1·r2, r1 > rbar exactly when r2 < rbar: the ranges grow on opposite sides of zero |
| AxisRanges.MixedRange | _TEST_y_axis_ranges.py:16-39 | both arrays are updated in place as the mixing says, and the same two arrays are returned |
| AxisRanges.MixedRangesMatch | _TEST_y_axis_ranges.py:16-39 | the two mixed ranges end with equal ratios and keep all of their data range |
| SetupConfig.NewTraceConfig | mldashboard/containers/setupconfig.py:5-20 | yaxis "primary", errors False, point True, shape "spline" |
| SetupConfig.NewGraphConfig | mldashboard/containers/setupconfig.py:34-52 | nxdown, showmax, showmin and every label default to False |
| SetupConfig.AnySecondary | mldashboard/containers/setupconfig.py:55-57 | true exactly when some trace's yaxis is "secondary" |
| SetupConfig.HasSubplots | mldashboard/containers/setupconfig.py:55-57 | a graph has subplots exactly when some trace is on the secondary axis |
| SetupConfig.HasSubplotsNeedsSecondary | mldashboard/containers/setupconfig.py:55-57 | only the exact text "secondary" selects the second axis |
| SetupConfig.TestConfigSubplots | tests/units/test_setupconfig.py:14-42 | the test configuration's graph1 has subplots |
| SetupConfig.SanitizeTrace | mldashboard/containers/setupconfig.py:22-23 | raises NotImplementedError |
| SetupConfig.SanitizeGraph | mldashboard/containers/setupconfig.py:60-61 | raises NotImplementedError |
| SetupConfig.SanitizeConfig | mldashboard/containers/setupconfig.py:80-81 | returns None without checking anything |
| DataStore.TraceStore.constructor | mldashboard/containers/datastore.py:16-34 | empty x and y, ymin +inf, ymax -inf, both flags False, no bands and no grid |
| DataStore.TraceStore.AddXdown | mldashboard/containers/datastore.py:36-38 | the grid becomes `linspace(0, totalx, n)`; a negative n raises ValueError and leaves the store alone; nothing else changes |
| DataStore.TraceStore.AddErrorband | mldashboard/containers/datastore.py:40-43 | both band lists become empty, whatever they held; nothing else changes |
| DataStore.XdownGrid | mldashboard/containers/datastore.py:36-38 | the grid has n points, spans [0, totalx] and is evenly spaced |
| DataStore.ProcsStore.constructor | mldashboard/containers/datastore.py:9-13 | empty speed deque, t0 and t1 None |
| DataStore.GraphStore.constructor | mldashboard/containers/datastore.py:46-48 | no traces |
| DataStore.Store.constructor | mldashboard/containers/datastore.py:52-64 | three distinct, fresh, empty graph stores and a fresh processing store |
| Name2Id.GraphN2Id.constructor | mldashboard/containers/name2id.py:28-32 | no traces, counter at 0 |
| Name2Id.GraphN2Id.GetNewId | mldashboard/containers/name2id.py:34-37 | returns the counter, then advances it by one |
| Name2Id.GraphN2Id.Snapshot | mldashboard/containers/name2id.py:28-32 | the role ids of every trace of the graph, in list order |
| Name2Id.TraceN2Id.constructor | mldashboard/containers/name2id.py:6-15 | every role unset, no parent |
| Name2Id.TraceN2Id.RegisterParent | mldashboard/containers/name2id.py:17-19 | the trace gets the graph as parent and returns itself |
| Name2Id.TraceN2Id.Register | mldashboard/containers/name2id.py:21-26 | ValueError on a set role, with nothing changed; otherwise only that role changes, to the parent's next id; AttributeError without a parent |
| Name2Id.RegisterKeepsUnique | mldashboard/containers/name2id.py:15-19 | handing the counter to an unset role and advancing it keeps every id distinct and below the counter |
| Name2Id.MapN2Id.constructor | mldashboard/containers/name2id.py:39-43 | one fresh, empty registry per graph |
| Name2Id.AttachPair | tests/units/name2id.py:16-24 | two fresh traces registered with the graph become its trace list |
| Name2Id.UnitTestScenario | tests/units/name2id.py:14-38 | `main` gets 0, `point` 1, `hi` stays unset, the counter ends at 2, registering `main` again raises ValueError |
| Flexgraph.XRange | mldashboard/dash/components/graphs.py:18-30 | the x extent padded by the same amount on both sides, containing [0, totalx] |
| Flexgraph.NewTrace | mldashboard/dash/components/graphs.py:47-61 | a looped figure trace carries its role and its trace's number, and is on the secondary axis exactly when that trace is |
| Flexgraph.Figure.constructor | mldashboard/dash/components/graphs.py:34-40 | a figure without traces or annotations, with a secondary axis exactly for subplots |
| Flexgraph.Figure.AddTraces | mldashboard/dash/components/graphs.py:64-67 | the traces go at the end, in order |
| Flexgraph.Figure.AddAnnotation | mldashboard/dash/components/graphs.py:111-128 | the annotation goes at the end |
| Flexgraph.NewLine | mldashboard/dash/components/graphs.py:80-99 | a min/max line runs from x = 0 to the right end of XRANGE, with both y unset |
| Flexgraph.NewAnnot | mldashboard/dash/components/graphs.py:111-128 | an annotation at the right end of XRANGE, height 0, hidden |
| Flexgraph.RegisterMeaning | mldashboard/dash/components/graphs.py:69 | registering into a graph's registry: IndexError without the entry, ValueError on a set role, else exactly that role takes the counter |
| Flexgraph.LineTrace | mldashboard/dash/components/graphs.py:78 | `int(showmin[-1])`: TypeError for an int or a bool, IndexError for "", ValueError for a non-digit, and the digit for a string ending in one |
| Flexgraph.RegisterEach | mldashboard/dash/components/graphs.py:244-245 | the roles are registered in order, up to the first exception |
| Flexgraph.AddPass | mldashboard/dash/components/graphs.py:42-72 | each trace's figure traces are added and their roles registered, trace by trace, up to the first exception |
| Flexgraph.AddLine | mldashboard/dash/components/graphs.py:74-134 | nothing for False; otherwise the line is added and registered, then the annotation, each step's exception ending it |
| Flexgraph.MakeFlexgraph | mldashboard/dash/components/graphs.py:505-513 | a fresh figure, then bands, main lines, min line, max line and markers in that order, as the specification function `Flex` says |
| Flexgraph.FlexBuilds | mldashboard/dash/components/graphs.py:505-513 | on fresh registries with acceptable showmin/showmax, nothing raises and the figure is `Layout`, the annotations `AnnotLayout` |
| FlexgraphProperties.LayoutOrdered | mldashboard/dash/components/graphs.py:509-513 | the figure's traces are in insertion order: bands (lo before hi), main lines, min line, max line, markers, each pass in trace order |
| FlexgraphProperties.LayoutShape | mldashboard/dash/components/graphs.py:64-65 | every figure trace belongs to a configured trace, and is on the secondary axis exactly when the graph has subplots and its yaxis is not "primary" |
| FlexgraphProperties.LayoutHolds | mldashboard/dash/components/graphs.py:198-200 | the figure holds role r of trace k exactly when it is expected: a main line always, bands only with errors, a marker only with point, a line only when showmin/showmax names the trace |
| FlexgraphProperties.AnnotsAligned | mldashboard/dash/components/graphs.py:111-132 | at most the min annotation then the max one, each hidden at the right end of XRANGE, numbered by position |
| FlexgraphProperties.FlexIdsArePositions | mldashboard/dash/components/graphs.py:70-283 | after `make_flexgraph`, every registered id is its trace's or its annotation's position |
| FlexgraphProperties.FlexRegistersExpected | mldashboard/dash/components/graphs.py:244-283 | a role of trace k has an id exactly when it is expected, and an annotation id exactly for the line showmin/showmax names |
| FlexgraphProperties.TracesRegistered | mldashboard/dash/components/graphs.py:69 | after the trace passes, a role of trace k has an id exactly when the role is expected for that trace |
| FlexgraphProperties.AnnotsRegistered | mldashboard/dash/components/graphs.py:132 | the annotation registry holds an entry exactly for the line `showmin`/`showmax` names |
| FlexgraphProperties.FlexRejects | mldashboard/dash/components/graphs.py:78 | a showmin or showmax that names no trace makes `make_flexgraph` raise `int(v[-1])`'s error, or IndexError |
| Callbacks.Newest | mldashboard/dash/components/callbacks.py:37 | the last index of the shorter of x and y, so it is valid in both |
| Callbacks.RawUpdate | mldashboard/dash/components/callbacks.py:35-62 | without a grid: the raw slice after the checkpoint, the doubled newest point and the band slices, or no edits |
| Callbacks.DownUpdate | mldashboard/dash/components/callbacks.py:65-122 | with a grid: the new checkpoint is the last covered grid point; when it advances, the new grid slice with interpolated y, the marker's x and the bands |
| Callbacks.BandEdits | mldashboard/dash/components/callbacks.py:102-120 | TypeError without a band list, else both bands on the same grid slice |
| Callbacks.DataUpdate | mldashboard/dash/components/callbacks.py:35-122 | IndexError for a short checkpoint list; a new checkpoint is always past the old one |
| Callbacks.TraceStepFrame | mldashboard/dash/components/callbacks.py:24-162 | the loop body only clears flags of its store and only advances its own checkpoint |
| Callbacks.Step | mldashboard/dash/components/callbacks.py:24 | IndexError without a store for the trace, else one loop body |
| Callbacks.RunFrame | mldashboard/dash/components/callbacks.py:24-162 | the whole loop only clears flags and advances checkpoints, and getting through means a store for every trace |
| Callbacks.StepFrame | mldashboard/dash/components/callbacks.py:24-162 | one iteration only clears flags and advances checkpoints |
| Callbacks.RunDone | mldashboard/dash/components/callbacks.py:24 | the loop past its last trace changes nothing |
| Callbacks.AxisMins | mldashboard/dash/components/callbacks.py:180-187 | an axis's minima, a trace on the other axis counting as 0 |
| Callbacks.AxisMaxs | mldashboard/dash/components/callbacks.py:188-195 | an axis's maxima, a trace on the other axis counting as 0 |
| Callbacks.FloorZero | mldashboard/dash/components/callbacks.py:169 | `min(ymins + [0])` is at most 0 and every finite minimum, and is 0 or one of them |
| Callbacks.CeilZero | mldashboard/dash/components/callbacks.py:170 | `max(ymaxs + [0])` is at least 0 and every finite maximum, and is 0 or one of them |
| Callbacks.DataRange | mldashboard/dash/components/callbacks.py:178-193 | each axis's zero-anchored range, with a trace on the other axis counting as 0 |
| Callbacks.MixRanges | mldashboard/dash/components/callbacks.py:201 | ZeroDivisionError when a lower bound is 0, otherwise both ranges mixed with the geometric mean |
| Callbacks.RatioMean | mldashboard/dash/components/callbacks.py:201 | the geometric mean of two positive ratios is positive and squares to their product |
| Callbacks.DualLimits | mldashboard/dash/components/callbacks.py:199-205 | the four axis-limit edits of two axes, or the mixing's ZeroDivisionError |
| Callbacks.MixStep | _TEST_y_axis_ranges.py:16-39 | the mixing on two fresh two-element lists, with the ratio check in front |
| Callbacks.EmitRanges | mldashboard/dash/components/callbacks.py:165-205 | the range section with the arguments in their corrected order |
| Callbacks.ProcessTrace | mldashboard/dash/components/callbacks.py:24-162 | one loop pass: the store, the checkpoint list, the patch and `anyMinMaxChange` end as the loop body's specification says |
| Callbacks.RunPastStores | mldashboard/dash/components/callbacks.py:24 | a loop reaching a trace without a store raises IndexError |
| Callbacks.TraceIteration | mldashboard/dash/components/callbacks.py:24-162 | iteration n's run is the exception it raises, or the run from n + 1 on the new state |
| Callbacks.TraceLoop | mldashboard/dash/components/callbacks.py:24-162 | the stores, checkpoints, patch and accumulator end as the loop's specification says, and so does the exception that stops it |
| Callbacks.GenerateFlexgraphPatch | mldashboard/dash/components/callbacks.py:14-214 | the stores and checkpoints end as the corrected cycle says, also after an early exception; on success the result is the debug patch and the checkpoint list |
| Callbacks.UpdateProcSpeed | mldashboard/dash/components/callbacks.py:216-223 | the placeholder for an empty deque, else the mean rate, which lies between the extreme rates |
| CallbackProperties.SkipsEmptyTrace | mldashboard/dash/components/callbacks.py:28-30 | a trace without x or y: no edits, and the store, checkpoints and accumulator stay |
| CallbackProperties.RawEdits | mldashboard/dash/components/callbacks.py:35-62 | raw mode: nothing new gives no edits; otherwise the main trace gets exactly the raw points after the checkpoint, the marker the newest point twice, the bands the same slice |
| CallbackProperties.RawShapeSync | mldashboard/dash/components/callbacks.py:46-47 | the raw edits extend the main trace by exactly the samples after the checkpoint up to the newest |
| CallbackProperties.RawKeepsFigureInSync | mldashboard/dash/components/callbacks.py:46-47 | a main trace showing the samples up to the checkpoint shows those up to the new checkpoint afterwards |
| CallbackProperties.DownEdits | mldashboard/dash/components/callbacks.py:65-122 | downsampled mode: an advancing update moves the checkpoint to the last covered grid point and emits the grid edits |
| CallbackProperties.GridEditsShape | mldashboard/dash/components/callbacks.py:80-99 | interpolating from the first raw point covering the first new grid point yields the downsampled edits |
| CallbackProperties.DownShapeSync | mldashboard/dash/components/callbacks.py:94-99 | the downsampled edits extend the main trace's x by exactly the new grid points and its y by as many values |
| CallbackProperties.DownNothingNew | mldashboard/dash/components/callbacks.py:76-77 | no covered new grid point: no edits, checkpoint unchanged |
| CallbackProperties.DownKeepsFigureInSync | mldashboard/dash/components/callbacks.py:87-99 | a main trace showing the grid up to the checkpoint shows it up to the new checkpoint, and its y grew by as many values |
| CallbackProperties.TraceStepConsumesFlags | mldashboard/dash/components/callbacks.py:126-137 | both flags end cleared, a set flag marks `anyMinMaxChange`, the checkpoint takes the data section's value, and a data-section exception changes nothing |
| CallbackProperties.FalseSelectsTraceZero | mldashboard/dash/components/callbacks.py:140 | `False == n` holds only for n = 0 |
| CallbackProperties.AsWrittenLinesStay | mldashboard/dash/components/callbacks.py:140-153 | as written, a string `showmin`/`showmax` selects no trace, so no line edit is made, where the corrected section moves the min line of the trace the string names |
| CallbackProperties.SelectedLinesWereBuilt | mldashboard/dash/components/callbacks.py:140-153 | for a configuration `make_flexgraph` accepts, the corrected section selects trace k's min (max) line exactly when the builder registered that line and its annotation |
| CallbackProperties.LineUpdateMoves | mldashboard/dash/components/callbacks.py:140-162 | the trace whose digit `showmin` ends in, with a new minimum: its min line moves to [ymin, ymin] and its annotation to ymin, shown and captioned; the same for the maximum; IndexError without ids |
| CallbackProperties.RangesOnlyAfterChange | mldashboard/dash/components/callbacks.py:165 | without a set flag, the range section adds nothing |
| CallbackProperties.SingleAxisLimits | mldashboard/dash/components/callbacks.py:167-175 | one axis: two limits containing 0 and every finite extremum of every trace |
| CallbackProperties.DualAxisLimits | mldashboard/dash/components/callbacks.py:178-205 | two axes: ZeroDivisionError exactly when an axis has only zero extrema; else each axis's limits contain its data range and every finite extremum of each trace on that axis, and have equal ratios, so the zero lines align |
| CallbackProperties.AsWrittenSingleAxis | mldashboard/dash/components/callbacks.py:173 | as written, one axis gets limits only when its data range is all zero, else ValueError |
| CallbackProperties.AsWrittenDualAxisFails | mldashboard/dash/components/callbacks.py:199-200 | as written, two axes always fail: ValueError, or ZeroDivisionError for all-zero ranges |
| CallbackProperties.AsWrittenCounterexample | mldashboard/dash/components/callbacks.py:173 | one trace with minimum -2 and maximum 10: ValueError as written, [-2.2, 11] corrected |
| Callbacks.RangeOps | mldashboard/dash/components/callbacks.py:167-207 | no limit edits without a changed extremum; the corrected range section fails only with two axes, and then only by ZeroDivisionError |
| Callbacks.RangeOpsAsWritten | mldashboard/dash/components/callbacks.py:167-207 | no limit edits without a changed extremum; as written, one axis succeeds exactly when its data range is all zero, two axes always fail, and only with ValueError or ZeroDivisionError |
| Callbacks.Cycle | mldashboard/dash/components/callbacks.py:24-207 | over a cycle (range call and line selection corrected), samples and extrema stay, only flags may clear, no checkpoint goes back, and getting through needs a store per trace |
| Callbacks.CycleAsWritten | mldashboard/dash/components/callbacks.py:24-207 | the same frame for the cycle with the range call as written (line selection corrected) |
| CallbackProperties.AsWrittenCycle | mldashboard/dash/components/callbacks.py:167-207 | both cycles leave the same stores and checkpoints; after a flag with one axis the as-written one raises ValueError exactly when the data range is not all zero, where the corrected one gets through; with two axes it always fails |
| CallbackProperties.DebugPatchEffect | mldashboard/dash/components/callbacks.py:209-214 | the returned patch extends trace 0's x and y by 0.5 and touches no other trace |
| CallbackProperties.ProcSpeedMatchesReadSpeed | mldashboard/dash/components/callbacks.py:216-223 | the readout shows the rate `batchtimer("read")` reports, or the placeholder when there are no timings |
| PlotterCore.SubplotFlags | mldashboard/plotter.py:32-37 | a graph's subplots flag is True exactly when one of its traces has T == "secondary" |
| PlotterCore.LinspaceCount | mldashboard/plotter.py:88 | the count `linspace` takes from a `bool`/int option: True counts as 1, False as 0, an int as itself, a string raises TypeError |
| PlotterCore.XDownFor | mldashboard/plotter.py:85-88 | no grid when downsamplex is False, else `linspace(0, totalx, downsamplex)` |
| PlotterCore.MakeBuffers | mldashboard/plotter.py:65-100 | the trace loops, numbering graphs and traces from 1 |
| PlotterCore.PrefixFails | mldashboard/plotter.py:88 | a trace whose grid raises makes the whole store raise |
| PlotterCore.InitialBuffersShape | mldashboard/plotter.py:68-92 | graphs 1.., traces 1.., each empty with ±inf extrema and flags down, bands exactly when E is True, a grid exactly when downsamplex is not False |
| PlotterCore.AddSampleAppends | mldashboard/plotter.py:113-114 | one x and one y are appended; the grid never changes |
| PlotterCore.AddSampleBands | mldashboard/plotter.py:117-119 | the bands grow by y - lo and y + hi only when both are given |
| PlotterCore.AddSampleExtrema | mldashboard/plotter.py:122-127 | ymin becomes y exactly on a strictly smaller y, raising its flag; likewise ymax; a failed call changes neither |
| PlotterCore.AddSampleTracks | mldashboard/plotter.py:122-127 | successful calls keep the extrema at the minimum and maximum of y |
| PlotterCore.AddSampleKeyErrorLeavesExtremaStale | mldashboard/plotter.py:117-127 | given deviations without band lists, the KeyError leaves a sample the extrema never saw |
| PlotterCore.AddSampleMonotone | mldashboard/plotter.py:122-127 | ymin never rises, ymax never falls |
| PlotterCore.FirstSampleSetsBoth | mldashboard/plotter.py:122-127 | the first sample sets both extrema to it and raises both flags |
| PlotterCore.StoreAddFrames | mldashboard/plotter.py:113-127 | only the addressed trace changes |
| PlotterCore.ExtremaExample | mldashboard/plotter.py:122-127 | samples 5, 3, 7, 1 end with extrema 1 and 7 and both flags up |
| Plotter.PushKeepsNewest | mldashboard/plotter.py:96 | the deque keeps the last min(n + 1, 10) rates, the new one last |
| Plotter.ReadSpeed | mldashboard/plotter.py:151-156 | 0 without timings, else the mean rate, between the extreme rates |
| Plotter.ReadSpeedExample | mldashboard/plotter.py:151-156 | rates 100, 200 and 300 read as 200 |
| Plotter.DashPlotter.FromParts | mldashboard/plotter.py:40-58 | the given options, flags, store and summary, an empty speed deque, no timings, and an empty trace map for each of g1, g2, g3 |
| Plotter.DashPlotter.Create | mldashboard/plotter.py:27-58 | subplot flags per graph, `_make_store`'s store or its exception, an empty deque, no timings, three empty trace maps, the summary text |
| Plotter.DashPlotter.AddData | mldashboard/plotter.py:102-127 | the store changes as one `add_data` step says; nothing else does |
| Plotter.DashPlotter.Batchtimer | mldashboard/plotter.py:129-156 | unknown action: ValueError; start: t0 set, t1 cleared; stop: t1 set, then ValueError without t0, for t0 >= t1 or without a batch size, else the rate pushed and both cleared; read: `ReadSpeed` |
| LegacyPlotter.DashPlotter.FromParts | ml_dashboard/plotter.py:34-43 | the given options, flags and store, and an empty trace map for each of g1, g2, g3 |
| LegacyPlotter.DashPlotter.Create | ml_dashboard/plotter.py:23-81 | subplot flags per graph, `_make_store`'s store or its exception, three empty trace maps |
| LegacyPlotter.DashPlotter.AddData | ml_dashboard/plotter.py:83-108 | the store changes as one `add_data` step says; nothing else does |
| LegacyPlotter.DashPlotter.Batchtimer | ml_dashboard/plotter.py:110-112 | returns None and changes nothing |
| LegacyFlexgraph.TraceNumber | ml_dashboard/dash/components/graphs.py:41 | `int(key[-1])`: the last digit; IndexError for "", ValueError for a non-digit |
| LegacyFlexgraph.Lookup | ml_dashboard/dash/components/graphs.py:98 | `trc[key]`: the last entry with that key, KeyError exactly when there is none |
| LegacyFlexgraph.PassStep | ml_dashboard/dash/components/graphs.py:144-200 | one pass's traces for one key all come from that configured trace |
| LegacyFlexgraph.LineStep | ml_dashboard/dash/components/graphs.py:70-104 | nothing for False, TypeError for an int or True |
| LegacyFlexgraph.Assign | ml_dashboard/dash/components/graphs.py:67 | `n2t[g][key] = len(n2t[g])`: the key gets the old length, other keys stay, a new key adds one entry |
| LegacyFlexgraph.TraceMap.constructor | ml_dashboard/plotter.py:39-43 | an empty map |
| LegacyFlexgraph.TraceMap.Enter | ml_dashboard/dash/components/graphs.py:67 | one assignment |
| LegacyFlexgraph.TraceMap.EnterAll | ml_dashboard/dash/components/graphs.py:192-193 | the assignments in order |
| LegacyFlexgraph.ReplayConcat | ml_dashboard/dash/components/graphs.py:454-458 | entering two lists in turn is entering their concatenation |
| LegacyFlexgraph.AddPass | ml_dashboard/dash/components/graphs.py:37-68 | each key's traces are added and entered, up to the first exception |
| LegacyFlexgraph.AddLine | ml_dashboard/dash/components/graphs.py:70-140 | the line, if any, is added and entered |
| LegacyFlexgraph.MakeFlexgraph | ml_dashboard/dash/components/graphs.py:451-480 | the five passes in order; an exception is passed on; otherwise the figure, or UnboundLocalError when no label helper bound `fig` |
| LegacyFlexgraphProperties.LayoutOrdered | ml_dashboard/dash/components/graphs.py:454-458 | all bands, then all main lines, then the min line, then the max line, then all end points |
| LegacyFlexgraphProperties.LayoutSound | ml_dashboard/dash/components/graphs.py:41-62 | every figure trace names a configured trace, carries its key's digit and sits on its axis |
| LegacyFlexgraphProperties.LayoutRolesDistinct | ml_dashboard/dash/components/graphs.py:40-230 | two traces of one role come from different configured traces |
| LegacyFlexgraphProperties.IdsArePositions | ml_dashboard/dash/components/graphs.py:67-230 | from an empty map with distinct keys, every id is its trace's position and the map holds nothing else |
| LegacyFlexgraphProperties.NumberedIdsArePositions | ml_dashboard/dash/components/graphs.py:41 | keys ending in distinct digits give ids equal to positions |
| LegacyFlexgraphProperties.LayoutIncludes | ml_dashboard/dash/components/graphs.py:145-200 | every trace has its main line, its bands when E is not False and its end point when P is not False |
| LegacyFlexgraphProperties.CollidingKeysShiftIds | ml_dashboard/dash/components/graphs.py:41 | "trace1" and "trace11" collide: the later end point gets id 2 at position 3 |
| Prototypes.BestEditsRecorded | _TEST_update_callb_prototypes.py:46-57 | the best-value edits are the level, the caption, the annotation height and the two limits, in order |
| Prototypes.MainEditsDraw | _TEST_update_callb_prototypes.py:38-39 | the main edits extend trace 0 and leave the others alone |
| Prototypes.EndEditsDraw | _TEST_update_callb_prototypes.py:42-43 | the end-point edits replace trace 1 and leave the others alone |
| Prototypes.BestEditsKeepData | _TEST_update_callb_prototypes.py:46-57 | the best-value edits touch no data field |
| Prototypes.CountPatchMain | _TEST_update_callb_prototypes.py:36-39 | the main trace's x and y grow by the samples after the checkpoint |
| Prototypes.CountPatchEnd | _TEST_update_callb_prototypes.py:42-43 | the end point becomes the newest sample |
| Prototypes.CountPatchApply | _TEST_update_callb_prototypes.py:36-57 | what a count-checkpoint refresh does to each data field |
| Prototypes.CountPatchDraws | _TEST_update_callb_prototypes.py:36-43 | a main trace showing the first `drawn` samples shows all of them afterwards; the end point shows the newest |
| Prototypes.CountPatchBounds | _TEST_update_callb_prototypes.py:46-57 | the best line and annotation sit at the lowest sample; every sample lies inside the new limits, one unit away at the extremes |
| Prototypes.RefreshesFollowStore | _TEST_update_callb_prototypes.py:32-39 | successive refreshes over a growing store draw exactly the store |
| Prototypes.UpdateCountPrototype | _TEST_update_callb_prototypes.py:14-59 | no_update for an empty store; ValueError from np.interp for fewer y than x; otherwise the checkpoint is the raw count and all three cards get the same patch |
| Prototypes.IndexUpdate | _TEST_update_callb_prototypes.py:77-122 | the second prototype's result: with checkpoint candidate `len(x) - 1` (raw) or `IdxNextSmaller(x_down, x[-1])` (downsampled), an empty patch and no_update when it is not above the old one; otherwise that candidate is the checkpoint; only the downsampled branch, past the early exit, can fail |
| Prototypes.RawUpdate | _TEST_update_callb_prototypes.py:82-122 | never fails; no_update when `len(x) - 1` is not above the old checkpoint, else the raw edits with checkpoint `len(x) - 1` |
| Prototypes.GridUpdate | _TEST_update_callb_prototypes.py:93-122 | no_update when `IdxNextSmaller(x_down, x[-1])` is not above the old checkpoint; otherwise it fails exactly when the grid edits fail, with their error, and else gives the grid edits with that checkpoint |
| Prototypes.RawEditsDraw | _TEST_update_callb_prototypes.py:88-91 | a main trace showing samples up to `drawn` shows all of them afterwards |
| Prototypes.WindowInterp | _TEST_update_callb_prototypes.py:105-112 | interpolating on the raw points from j gives what the whole series gives once point j is at or below the query |
| Prototypes.WindowInterpAll | _TEST_update_callb_prototypes.py:105-112 | the window of the downsampled branch interpolates the grid as the whole raw series does |
| Prototypes.GridEditsResample | _TEST_update_callb_prototypes.py:105-120 | the new grid points get np.interp's values over the whole raw series, and the end point is the last of them |
| Prototypes.GridEditsShortY | _TEST_update_callb_prototypes.py:108-112 | ValueError for fewer y than x samples |
| Prototypes.GridEditsOk | _TEST_update_callb_prototypes.py:108-120 | when every step succeeds, the grid edits are the grid slice, its interpolated values and the end point, in that order |
| Prototypes.GridEditsDraw | _TEST_update_callb_prototypes.py:115-116 | a main trace showing the grid up to `drawn` shows it up to `next` afterwards |
| Prototypes.ExtendAndMove | _TEST_update_callb_prototypes.py:115-120 | extending trace 0 and then replacing trace 1's point: what each data field becomes |
| Prototypes.UpdateIndexPrototype | _TEST_update_callb_prototypes.py:73-122 | an empty store gives the empty patch and no_update; each branch returns early with no_update when nothing is new, else its edits and the new checkpoint |
| TestApp.UpdateGraphPatched | testapp.py:208-247 | no_update for an empty store; ValueError from the unused np.interp when x and y differ in length; the checkpoint is len(x); all three cards get the same patch, empty when nothing is new |
| Sampler.FloorDiv | tests/run_training_loop.py:153 | `a // b` rounds towards minus infinity |
| Sampler.CeilDiv | tests/run_training_loop.py:101 | `ceil(a / b)` rounds towards plus infinity, for either sign of b |
| Sampler.ExpandLength | tests/run_training_loop.py:124-129 | the expanded schedule has one entry per epoch, the sum of the epoch counts |
| Sampler.ExpandBlock | tests/run_training_loop.py:103-112 | pair i fills its epochs, after those of the pairs before it, with its batch size |
| Sampler.ExpandConcat | tests/run_training_loop.py:109-112 | expanding a concatenation of pairs expands the parts one after the other |
| Sampler.ExpandExample | tests/run_training_loop.py:106 | [(64,1),(128,2),(256,4)] expands to [64,128,128,256,256,256,256] |
| Sampler.BatchSize | tests/run_training_loop.py:114-122 | `schedule[epoch]` within the schedule, else the last entry; it fails exactly for an empty schedule or an epoch before its start, always with IndexError |
| Sampler.Batches | tests/run_training_loop.py:97-101 | floor(n / bs) with drop_last, ceil(n / bs) without, for either sign of bs; it fails exactly for bs = 0, with ZeroDivisionError |
| Sampler.ChunksSizes | tests/run_training_loop.py:80-87 | every batch has bs indices except possibly a shorter, non-empty last one, which drop_last leaves out |
| Sampler.ChunksBounds | tests/run_training_loop.py:80-87 | the batch count c satisfies c·bs <= n < c·bs + bs with drop_last, and c·bs - bs < n <= c·bs without |
| Sampler.ChunksFlatten | tests/run_training_loop.py:80-87 | the batches are the indices in order: all of them, or a prefix when the tail is dropped |
| Sampler.ChunksCount | tests/run_training_loop.py:94-101 | `__len__`'s formula counts the batches `__iter__` yields |
| Sampler.StepsCountBatches | tests/run_training_loop.py:131-143 | `get_total_steps` counts the batches of every scheduled epoch |
| Sampler.DroppedCountsSamples | tests/run_training_loop.py:151-153 | with drop_last, `get_total_samples` counts the samples every epoch yields |
| Sampler.KeptCountsSamples | tests/run_training_loop.py:154-155 | without drop_last, the epochs yield len(schedule)·n samples |
| Sampler.EpochSamples | tests/run_training_loop.py:80-87 | one epoch yields all indices, or only its complete batches with drop_last |
| Sampler.StepsSumFails | tests/run_training_loop.py:136-143 | `get_total_steps` raises exactly when a batch size is 0, with ZeroDivisionError |
| Sampler.DroppedSumFails | tests/run_training_loop.py:151-153 | `get_total_samples` with drop_last raises exactly when a batch size is 0 |
| Sampler.TotalsMatchIteration | tests/run_training_loop.py:131-156 | with positive batch sizes, both totals match what iterating every epoch yields, whatever the shuffle does |
| Sampler.ScheduledBatchSampler.constructor | tests/run_training_loop.py:45-61 | indices 0..n-1, the expanded schedule, no epoch, the flags as given |
| Sampler.Range | tests/run_training_loop.py:57 | `list(range(n))`: the numbers 0..n-1 in order |
| Sampler.ValidLength | tests/run_training_loop.py:57 | a valid sampler's index list has one entry per sample |
| Sampler.ScheduledBatchSampler.ExpandSchedule | tests/run_training_loop.py:103-112 | the loop builds the expanded schedule |
| Sampler.ScheduledBatchSampler.SetEpoch | tests/run_training_loop.py:158-164 | only the current epoch changes |
| Sampler.ScheduledBatchSampler.Len | tests/run_training_loop.py:89-101 | ValueError without an epoch, else the batch count for that epoch's batch size |
| Sampler.ScheduledBatchSampler.Iter | tests/run_training_loop.py:63-87 | ValueError without an epoch; the indices are the shuffled arrangement when shuffle is set; the batches are consecutive slices; ValueError for bs = 0, none for bs < 0 |
| Sampler.ScheduledBatchSampler.Batch | tests/run_training_loop.py:80-87 | the loop yields the batches of one epoch |
| Sampler.ScheduledBatchSampler.TotalSteps | tests/run_training_loop.py:131-143 | the loop computes `get_total_steps`' sum |
| Sampler.ScheduledBatchSampler.TotalSamples | tests/run_training_loop.py:145-156 | the sum of (n // bs)·bs with drop_last, len(schedule)·n without |
| Colors.Index | ml_dashboard/utils/utils.py:9 | `str.index`: the first position of the character, ValueError when absent |
| Colors.SplitLacks | ml_dashboard/utils/utils.py:9 | no piece of `str.split(c)` holds c, and a text without c is its only piece |
| Colors.SplitJoin | ml_dashboard/utils/utils.py:9 | joining the pieces of a split restores the text |
| Colors.JoinSplit | ml_dashboard/utils/utils.py:9 | splitting a join of comma-free pieces gives the pieces |
| Colors.StripLeftShape | ml_dashboard/utils/utils.py:10-11 | the left strip drops exactly the leading whitespace: what it keeps is a suffix starting with a non-space |
| Colors.StripRightShape | ml_dashboard/utils/utils.py:10-11 | the right strip drops exactly the trailing whitespace: what it keeps is a prefix ending with a non-space |
| Colors.StripSpaced | ml_dashboard/utils/utils.py:10-11 | stripping leading whitespace off a text that starts and ends with a non-space gives the text |
| Colors.ParseInt | ml_dashboard/utils/utils.py:10 | every failure of `int` is ValueError |
| Colors.ParseIntText | ml_dashboard/utils/utils.py:10 | `int` reads back the decimal text of any integer, after leading spaces |
| Colors.ParseFloat | ml_dashboard/utils/utils.py:11 | every failure of `float` is ValueError |
| Colors.ParseFloatText | ml_dashboard/utils/utils.py:11 | `float` reads the decimal text of any integer as that number, after leading spaces |
| Colors.ParseFloatExample | ml_dashboard/utils/utils.py:11 | `float(" -2.5")` is -2.5 |
| Colors.DigitsRoundTrip | ml_dashboard/utils/utils.py:10 | the decimal digits of n read back as n |
| Colors.Clamp | ml_dashboard/utils/utils.py:18 | `max(0, min(a, 1))` lies in [0, 1] and keeps values already in it |
| Colors.ScaleOne | ml_dashboard/utils/utils.py:15-17 | scaling the default alpha 1.0 gives the factor itself |
| Colors.Components | ml_dashboard/utils/utils.py:9 | ValueError exactly when "(" or ")" is missing |
| Colors.ReadComponents | ml_dashboard/utils/utils.py:10-11 | three ints and the alpha, which is 1.0 unless there are exactly four pieces |
| Colors.AdjustAlpha | ml_dashboard/utils/utils.py:4-19 | the output alpha always lies in [0, 1]; an rgb text fails only with ValueError, and always when it lacks a parenthesis; a colour name fails exactly when the lookup does, else keeps its red, green and blue |
| Colors.ZeroAdjustHides | mldashboard/dash/components/graphs.py:261 | `adjust_a` 0 makes every colour fully transparent |
| Colors.ComponentsOfText | ml_dashboard/utils/utils.py:9 | the components of `name(p1,...,pn)` are p1..pn |
| Colors.AdjustRead | ml_dashboard/utils/utils.py:8-19 | `adjust_alpha` of an rgb text is the reading of its pieces, alpha scaled and clamped |
| Colors.RgbRoundTrip | ml_dashboard/utils/utils.py:8-19 | `rgb(r, g, b)` gives back r, g, b with alpha clamp(adjust_a) |
| Colors.RgbaRoundTrip | ml_dashboard/utils/utils.py:8-19 | `rgba(r, g, b, a)` gives back r, g, b with alpha clamp(a·adjust_a) |

## Left out

- Dash and Plotly wiring: the app layout, interval timers, `dcc.Store`, the
  cards and both `dashapp.py` files. The `_ud_*` styling helpers of both
  `make_flexgraph`s are either not modelled or modelled with a styling
  trace's fields only. A Plotly figure is the list of its traces and
  annotations; a `Patch` is the list of edits it records.
- Dash's `no_update` is a value of the result type.
- Threads and processes: `run_script`, `run_jupyter`, the browser and the
  producer loop of `testapp.py`. The producer/consumer race enters only as
  x and y lists of possibly different lengths.
- torch and numpy numerics: `training_metrics.py`, tensor detaching,
  `TestNet` and the training script's loss and validation code, h5py, and
  the torchinfo summary. The summary text is a parameter.
- Floating point: values are reals, so IEEE rounding, NaN and the
  `:07.4f`/`:.3f`/thousands-separator formatting are not modelled. An
  annotation caption is the caption word plus the value it shows.
- `random.shuffle` is the `order` parameter, assumed to be a permutation;
  `time.perf_counter` is the `now` parameter.
- matplotlib's colour-name lookup in `adjust_alpha` is the `named`
  parameter; the rgba text `adjust_alpha` builds is the `Rgba` value.
- `Colors.ParseInt`, `Colors.ParseFloat`, `Flexgraph.LineTrace` and
  `LegacyFlexgraph.TraceNumber` read ASCII digits only; Python's `int` also
  reads other Unicode decimal digits (`int("\u0663")` is 3), which the model
  treats as ValueError. `Colors.ParseInt` and `Colors.ParseFloat` accept
  optional spaces, a sign and ASCII digits (and one decimal point) only. Underscores, exponents,
  "inf"/"nan" and non-ASCII digits are not modelled, and input using them
  is treated as ValueError. The whitespace they skip is the set Python's
  `int` and `float` skip in ASCII text (space, tab, newline, carriage
  return, vertical tab, form feed); Python also skips `\x85`, `\xa0` and
  the other non-ASCII Unicode whitespace, which the model treats as
  ordinary characters.
- The generator `__iter__` is modelled as the list of the batches it yields.
- `mldashboard/containers/config.py` and `name2trace.py` only declare data;
  the re-export `__init__.py` files and the example scripts are not modelled.
- `mldashboard/utils/utils.py` is not part of this model; see "How the model
  reads the code".
- The second prototype's `DO_DOWNSAMPLE` is a constant True in the code; the
  model takes it as a parameter so that the raw branch is covered too.
- `Interp.IdxNextSmaller`: the contract is the one its call sites describe,
  since its body is not part of this model.
- `LegacyFlexgraph.Lookup`: `trc` is a dict; the model takes the last entry
  with the key, which is the value a dict built by assigning the entries in
  turn holds, and the only one when keys are distinct.
- `LegacyFlexgraph.PassStep`: the colour of a trace is not modelled, so the
  ValueError that `adjust_alpha` raises on a malformed colour string while
  the bands and the end marker are styled
  (`ml_dashboard/dash/components/graphs.py:178,210,213`) does not occur in
  the model.
- `Flexgraph.PassStep`: likewise, the ValueError of `adjust_alpha` on a
  malformed `TraceConfig.color` (`mldashboard/dash/components/graphs.py:230,261,264`)
  is not modelled; `Colors.AdjustAlpha` states when it occurs.
- `Callbacks.GenerateFlexgraphPatch`: runs `Cycle`, with the range call in its
  corrected order, so it does not raise the as-written ValueError of
  `mldashboard/dash/components/callbacks.py:173`; `Callbacks.CycleAsWritten`
  and `CallbackProperties.AsWrittenCycle` state that behaviour. Both cycles
  select the trace of the extremum lines by the digit `showmin`/`showmax`
  ends in, not by the as-written int comparison of
  `mldashboard/dash/components/callbacks.py:140,153`;
  `Callbacks.LineUpdateAsWritten` and `CallbackProperties.AsWrittenLinesStay`
  state what that comparison does.

## Findings

| source | as written | input that shows it | evidently intended | confidence | as-written member | corrected member |
|---|---|---|---|---|---|---|
| mldashboard/dash/components/callbacks.py:173,199-200 | `determine_single_range(MIN, MAX, 0.1)`: MIN is passed into the `MAX` parameter and MAX into `MIN`, so the check `MAX < MIN` fires for every real data range | one trace on a single axis with ymin -2 and ymax 10 raises ValueError | `determine_single_range(MAX, MIN, 0.1)`, giving the axis limits [-2.2, 11] | not executed | CallbackProperties.AsWrittenCounterexample | CallbackProperties.SingleAxisLimits |
| mldashboard/dash/components/callbacks.py:140,153 | `G_CFG.showmin==trace_nr` (and the same for `showmax`) compares the option with an int, but `make_flexgraph` accepts only False or a string such as "trace1" (`mldashboard/dash/components/graphs.py:76-78`) | showmin "trace0" and a new minimum of trace 0: no edit is made, so the min line keeps no y values and its annotation stays hidden | `int(G_CFG.showmin[-1]) == trace_nr` when showmin is not False, the reading the figure builder uses | not executed | CallbackProperties.AsWrittenLinesStay | CallbackProperties.SelectedLinesWereBuilt |
