# timflow plotting geometry in Dafny

This project models the computational core of the plotting layer of
timflow, a package of analytic-element groundwater flow models. The model
covers what that layer computes before it hands anything to matplotlib:

- where a cross-section line lies, where its horizontal axis starts, and
  what axis limits it sets;
- how the leaky-layer and aquifer counters advance while the layer stack is
  walked, and where labels and parameter texts are placed;
- which layer boundaries get an aquifer-aquifer separator;
- the horizontal extent of a cross-section through a single-column model;
- the elevation grid and head rows of the vertical head contour;
- the stream-function grid of the one-dimensional flux contour;
- the colour palette, the panel choice and the per-trace drawing of
  `tracelines`.

The drawing surface appears as a log of draw commands (`CrossSection.Draw`,
`Tracing.PanelDraw`), so the order of what is drawn is part of each
contract. The model's own data comes in as parameters: layer types,
elevations, discharges, heads, and the aquifer lookup. So do the pathline
tracer and the length of a line. Dafny's reals have no square root, so a
line's length `len` is passed together with the `Geometry.IsLength`
property: `len` is non-negative and its square is the squared distance.
`Geometry.LengthUnique` shows that this fixes `len`. The exceptions the
plotting code raises itself, or runs into through its own indexing and
arithmetic, are `Failure` values of `Wrappers.Result`, and so is
matplotlib's refusal of an infinite axis limit. Other exceptions raised
inside the code it calls are not modelled; "## Left out" lists them.

Files:

- `wrappers.dfy`: `Option`, `Result`, and the errors raised.
- `geometry.dfy`: the line parameters and the combined plan-above-section layout.
- `cross_section.dfy`: the multi-layer cross-section.
- `simple_aquifer.dfy`: the extent of a single-column cross-section.
- `vertical_grid.dfy`: the grid of `vcontour`, plus the top/bottom interleave shared with `vcontoursf1D`.
- `stream_grid.dfy`: the grid of `vcontoursf1D`, on two-dimensional arrays as in the source.
- `tracing.dfy`: `tracelines`.

Two points about the code's behaviour:

- For discharges `[2.0, 3.0]` the loop at timflow/steady/plots.py:437-444
  gives the stream-function column `[-5, -3, -3, 0]`
  (`StreamGrid.TwoAquiferColumn`).
- `topview_and_xsection` draws the plan view and realigns the lower panel
  before it checks the mode (`Geometry.TopviewAndXsection`).

## Model

| member | source | states |
|---|---|---|
| Geometry.XsectionLineParams | timflow/plots/plots.py:411-431 | The call fails, with a ValueError, exactly when endpoints are given with a mode other than "s", "x", "y". Without endpoints it returns the unit line 0..1 and no limits. Otherwise the length is the Euclidean length and the endpoints are passed through. Per mode, the offset and limits are 0..length for "s", and the min..max of the endpoint x for "x" or y for "y". |
| Geometry.LengthUnique | timflow/plots/plots.py:413 | At most one non-negative number squares to the squared distance, so the length is determined by the endpoints. |
| Geometry.LineSpan | timflow/plots/plots.py:411-424 | For any valid mode the limits start at the offset `r0`. They end no further than `r0 + r`, and exactly there for "s". So text placed at `r0 + f*r` stays on the line. |
| Geometry.ThreeFourFive | timflow/plots/plots.py:411-416 | Endpoints (0,0) and (3,4) have length 5. In mode "s" they give offset 0 and limits 0..5. |
| Geometry.CompositeLine | timflow/plots/plots.py:246-253 | Mode "x" gives a line across the window at its vertical midpoint. Mode "y" gives a line up the window at its horizontal midpoint. Any other mode is a ValueError. |
| Geometry.CompositeLineSynchronised | timflow/plots/plots.py:244-259 | The cross-section of the combined layout spans exactly the window's range on the chosen axis. Its offset is the range's lower end and its length is the range's width. |
| Geometry.EffectiveWindow | timflow/plots/plots.py:244-245 | The window used is the caller's, or else the plan view's limits. |
| Geometry.TopviewAndXsection | timflow/plots/plots.py:237-253 | The lower panel takes the plan panel's x-origin and width and keeps its own y-origin and height, whatever the mode. The mode check fails exactly for modes other than "x" and "y". |
| CrossSection.StartIndices | timflow/plots/plots.py:443-445 | The aquifer counter starts at 0. The leaky counter starts at 1 if and only if the top layer is an aquifer, and at 0 otherwise. An empty stack has no top layer, and reading it is an IndexError. |
| CrossSection.LabelX | timflow/plots/plots.py:499 | The label sits at the middle of the line, or at its first quarter when parameters are shown. It is within `[r0, r0 + r]` for a non-negative length. |
| CrossSection.ParamX | timflow/plots/plots.py:584 | Parameter text sits at the middle of the line, or at its third quarter when labels are shown. Then it lies strictly right of the label. |
| CrossSection.AquiferStorage | timflow/plots/plots.py:637-645 | A steady model shows no storage term. A transient model shows the storativity for the top aquifer under a phreatic top, and the specific storage for every other aquifer. |
| CrossSection.PlotLayers | timflow/plots/plots.py:488-528 | Each counter ends at its start plus the number of layers of its type. Both stay unchanged when neither labels nor parameters are drawn. The draw log is the layer walk. |
| CrossSection.DrawLayer | timflow/plots/plots.py:489-527 | One pass of the layer loop issues exactly the layer's draw commands. A leaky layer gets its grey band, then a label and parameter text per the flags. The counter of the layer's type advances by one only when labels or parameters are drawn. |
| CrossSection.WalkNumbering | timflow/plots/plots.py:488-528 | Take the captions of one kind, among leaky labels, aquifer labels, leaky parameters and aquifer parameters. In drawing order they show exactly the consecutive numbers from that kind's start counter, one per layer of that type. |
| CrossSection.WalkTextsOnLine | timflow/plots/plots.py:497-504 | Every text the walk places lies on the line between `r0` and `r0 + r`, at the middle height of some layer. |
| CrossSection.AlternatingLeakyNumbers | timflow/plots/plots.py:443-445 | Take a stack that alternates aquifer and leaky layer. The starting rule numbers each leaky layer with the count of aquifers above it. |
| CrossSection.SeparatorIndicesExact | timflow/plots/plots.py:663-670 | The separator list holds exactly the boundaries with aquifers on both sides, in strictly increasing order. |
| CrossSection.AquiferBoundaries | timflow/plots/plots.py:663-670 | The loop marks a boundary if and only if the layers on both sides are aquifers. It marks them top to bottom, with one zero-height band at each such boundary's elevation. |
| CrossSection.LineSetup | timflow/plots/plots.py:411-429 | The line parameters give one axis command: the limits when there are any, else the x-ticks removed. |
| CrossSection.LineSetupFollowsEndpoints | timflow/plots/plots.py:411-429 | Without endpoints the x-ticks are removed. With them the limits start at the offset `r0` and end no further than one line length to its right, exactly there in mode "s". |
| CrossSection.Xsection | timflow/plots/plots.py:157-187 | The call fails exactly for a bad mode with endpoints given, with the ValueError, or for an empty layer stack, with an IndexError. Otherwise the drawing is, in order: the axis setup, the layer walk from the starting counters, the separators, the thin top rule, the thick base rule, and the x-tick removal when there are no endpoints. |
| SimpleAquifer.LeastStep | timflow/plots/plots.py:281-288 | One step of the `x_min` fold keeps it the least present extent attribute, or +inf when there is none. |
| SimpleAquifer.GreatestStep | timflow/plots/plots.py:289-295 | One step of the `x_max` fold keeps it the greatest present extent attribute, or -inf when there is none. |
| SimpleAquifer.SimpleAquiferExtent | timflow/plots/plots.py:279-316 | `x_min` and `x_max` are the least and greatest present `xls`/`xld` values. They are infinite exactly when no element has either attribute. With endpoints, the range is their x-coordinates. Otherwise the range is padded by a quarter of the span on each side and contains every present attribute, or it is (+inf, -inf) when none is present. Setting the range as the axis limits fails with a ValueError exactly in that last case, without endpoints and with no attribute present; otherwise the limits are the range. |
| SimpleAquifer.SetXLim | timflow/plots/plots.py:316 | `set_xlim` accepts the limits exactly when both are finite, and sets them unchanged; an infinite limit is a ValueError. |
| VerticalGrid.Interleave | timflow/steady/plots.py:205-208 | Entries `2i` and `2i+1` are aquifer `i`'s top and bottom. Over a stacked aquifer set the elevations never rise. The returned array is newly allocated. |
| VerticalGrid.RepeatRows | timflow/steady/plots.py:209 | Each head row appears twice, in order. |
| VerticalGrid.CentredElevations | timflow/steady/plots.py:201-202 | The elevations are the model top, then each layer's centre (the mean of its top and bottom), then the model base. |
| VerticalGrid.PaddedRows | timflow/steady/plots.py:203 | The head rows come padded with a copy of the first row before them and of the last row after them. |
| VerticalGrid.CentredNonIncreasing | timflow/steady/plots.py:200-203 | Over a stacked aquifer set the centred elevations never rise. |
| VerticalGrid.VerticalGrid | timflow/steady/plots.py:200-209 | There is one head row per elevation in both modes. With `vinterp`, the grid is the top, the layer centres and the base, and the head rows are padded with the first and last. Without it, tops and bottoms interleave and each head row appears twice. Over a stacked aquifer set the elevations never rise. |
| VerticalGrid.VContourAxis | timflow/steady/plots.py:191-199 | The horizontal coordinate is the x-samples for "x", the y-samples for "y", and the distances along the line for "s". Any other mode is a ValueError. |
| StreamGrid.StreamColumnMeaning | timflow/steady/plots.py:437-444 | At the model top the column is minus the total discharge, and at its base it is zero. It rises by exactly each aquifer's discharge from that aquifer's top to its bottom, and stays constant across each leaky layer. |
| StreamGrid.TwoAquiferColumn | timflow/steady/plots.py:437-444 | Discharges 2 and 3 give the column -5, -3, -3, 0. |
| StreamGrid.DischargeGrid | timflow/steady/plots.py:429-431 | Row `l`, column `j` holds aquifer `l`'s discharge at sample point `j`. The returned array is newly allocated. |
| StreamGrid.FlipRows | timflow/steady/plots.py:437 | The result has the rows in reverse order. The returned array is newly allocated. |
| StreamGrid.ZeroRow | timflow/steady/plots.py:439 | One row of the grid is set to zero and every other row is unchanged. |
| StreamGrid.SubtractRow | timflow/steady/plots.py:441-443 | One row becomes another row less a row of the discharges, and every other row is unchanged. |
| StreamGrid.CopyRow | timflow/steady/plots.py:442 | One row becomes a copy of another, and every other row is unchanged. |
| StreamGrid.AquiferStep | timflow/steady/plots.py:440-442 | One loop pass sets an aquifer's top to the level below less its discharge, and copies it across the leaky layer above. This keeps every row equal to minus the discharge below its level. |
| StreamGrid.FromBase | timflow/steady/plots.py:438-443 | Before the final flip, row `m` is minus the discharge below its level. The returned array is newly allocated. |
| StreamGrid.Grid | timflow/steady/plots.py:437-444 | After both flips, column `j` of the grid is the stream-function column of the discharges at sample point `j`. The returned array is newly allocated. |
| StreamGrid.FluxContourGrids | timflow/steady/plots.py:427-444 | Without sample points the call fails with an IndexError, because there is no first sample to look the aquifers up at. Otherwise `zflow` interleaves tops and bottoms, never rises over a stacked aquifer set, and has one entry per grid row. The grid columns are stream-function columns. The returned arrays are newly allocated. |
| Tracing.RepeatLength | timflow/steady/plots.py:299 | `n * c` has `n` times the length of `c`. |
| Tracing.RepeatCycles | timflow/steady/plots.py:299 | Entry `k` of `n * c` is entry `k mod len(c)` of `c`. |
| Tracing.CeilingCopies | timflow/steady/plots.py:298 | `ceil(naq / len)` copies of a list give at least `naq` entries. |
| Tracing.BaseColours | timflow/steady/plots.py:290-295 | The base list is the default cycle, `naq` copies of one colour, or the given list. |
| Tracing.RepeatedPalette | timflow/steady/plots.py:297-299 | Padding a short non-empty list gives at least `naq` colours, cycling through the list. |
| Tracing.Palette | timflow/steady/plots.py:290-299 | Building the palette fails exactly for an argument of another type, which leaves `c` unassigned. It also fails, dividing by zero, for an empty list when there are aquifers. |
| Tracing.PaletteCovers | timflow/steady/plots.py:290-299 | A palette that succeeds has a colour for every aquifer, and entry `k` is base entry `k mod len`. A long enough base list is used unchanged. |
| Tracing.SingleColourEverywhere | timflow/steady/plots.py:292-293 | A single colour gives exactly `naq` copies of it. |
| Tracing.MidLine | timflow/steady/plots.py:315 | The line of a section drawn on its own is the line `topview_and_xsection` uses in mode "x": across the window at its vertical midpoint, inside the window when it is not empty. |
| Tracing.PanelsFor | timflow/steady/plots.py:301-319 | The call fails exactly when the orientation reads given axes ("both" reads two, "hor…" and "ver…" one) and the axes are a single Axes, which cannot be subscripted (a TypeError), or an array with fewer axes than that (an IndexError). Otherwise there is a plan panel if and only if the orientation is "both" or starts with "hor", and a section panel if and only if it is "both" or starts with "ver". Without axes no panel comes from given axes, and the plan panel is the upper panel of a new plan-above-section figure over the window for "both", or a new plan view of the window. With an array, the plan panel is `axes[0]`; the section panel is `axes[1]` for "both" and the last axes for "ver…"; every panel lies within the array, and the two panels of "both" are different axes. This is the intended behaviour; see "## Findings" for the code as written. |
| Tracing.PanelsAsWritten | timflow/steady/plots.py:301-319 | As written, an orientation starting with "ver" without axes fails with an AttributeError for a multi-layer model, exactly where the intended panels hold a section along the midline. Every other case, including the TypeError and IndexError of subscripting the given axes, is the intended panel choice. |
| Tracing.VerticalPanelOnMidline | timflow/steady/plots.py:302-317 | Without given axes the panel choice never fails, and the section panel, alone or below the plan view, is always the section along the window's horizontal midline. |
| Tracing.Segments | timflow/steady/plots.py:355-356 | There is one segment fewer than there are points, and none for no points. |
| Tracing.SegmentsRoundTrip | timflow/steady/plots.py:355-356 | Each segment ends where the next one starts, and walking the segments gives back exactly the pathline's points. |
| Tracing.PlanPoints | timflow/steady/plots.py:355 | The plan points are the (x, y) of every sample, in order. |
| Tracing.SectionPoints | timflow/steady/plots.py:367 | The section points are the (x, z) of every sample, in order. |
| Tracing.ColourAt | timflow/steady/plots.py:352-354 | A point in a leaky layer is black, and an indexing failure is an IndexError. |
| Tracing.Colours | timflow/steady/plots.py:350-354 | There is one colour per zipped point, or an IndexError. |
| Tracing.ColoursPointwise | timflow/steady/plots.py:350-354 | The colours exist if and only if every zipped point's colour exists, and then they are those colours in order. |
| Tracing.ColoursFailureSticks | timflow/steady/plots.py:350-354 | The first point without a colour fails the whole colour loop. |
| Tracing.ColourDefined | timflow/steady/plots.py:290-299 | With a palette that succeeded and consistent aquifer data, every point in an existing layer gets a colour. That colour is its aquifer number's palette colour, or black in a leaky layer. |
| Tracing.PointColours | timflow/steady/plots.py:348-354 | The colour loop returns the colour list of the zipped points or its first failure. |
| Tracing.TraceStep | timflow/steady/plots.py:348-371 | When it succeeds, each trace adds one collection per panel plus the section's limits. After a trace with a section panel, `aq` is assigned. |
| Tracing.DrawTrace | timflow/steady/plots.py:348-371 | The loop body for one trace draws exactly what the per-trace specification says. |
| Tracing.Traces | timflow/steady/plots.py:325-339 | There is one trace per start point, and trace `i` is the tracer's result for start point `i`. |
| Tracing.TraceFoldCount | timflow/steady/plots.py:325-371 | After `n` traces the panels have received `n` times the per-trace number of items. |
| Tracing.TraceFoldFailureSticks | timflow/steady/plots.py:325-371 | Once a trace fails, the whole call fails with that error. |
| Tracing.UnboundExactly | timflow/steady/plots.py:362-371 | Setting the section's limits reads `aq` unassigned if and only if there is a section panel and the first trace has no zipped points. |
| Tracing.UnboundNever | timflow/steady/plots.py:362-371 | After a first trace with points, or without a section panel, `aq` is never read unassigned. With a section panel it stays assigned. |
| Tracing.DrawNext | timflow/steady/plots.py:348-371 | One pass of the loop over the start points extends the fold over the traces before it by the next trace, including its error. |
| Tracing.TraceAll | timflow/steady/plots.py:320-371 | The loop over start points yields exactly the fold over their traces, including its first error. When traces are returned, they are the trace of every start point, in order. |
| Tracing.TraceLines | timflow/steady/plots.py:287-375 | The palette is built first and its failure is the call's failure. The panels come next, and a failure to choose them (subscripting the given axes) is the call's failure. The panels are the intended choice of `PanelsFor`, so for "ver" without axes in a multi-layer model this draws where the code as written fails (see "## Findings"). Without `return_traces` the tracer is always asked for metadata. The returned traces are exactly one per start point, in order. The drawing is the fold over the traces and fails with its first error. |

## Left out

- Rendering is out of scope: figure and axes creation, `axhspan` colours, line widths, `ylabel`, `set_aspect`, `contour`, `clabel`, `LineCollection` objects and figure sizes. Only the draw commands and their arguments are modelled.
- Plan views (`topview`, element and inhomogeneity `plot` calls) and the `isinstance` dispatch to the single-column cross-section are not part of this model. Only the extent fold of that cross-section is modelled.
- Parameter-text formatting is abstracted. The f-strings, format specifiers, units and the `sep` spacing become a `Caption` that records which parameters are shown and under which counter.
- `np.linspace` sample points, the `nudge` offsets and `headalongline`/`disvec`/`find_aquifer_data` are parameters: they are calls into model code outside the plotting layer.
- Geometry.XsectionLineParams: the length `np.sqrt(...)` is an input with its defining property. Floating-point rounding of the square root is not modelled.
- Tracing.Palette: `int(np.ceil(naq / len(c)))` is modelled as the exact integer ceiling. It agrees with the float computation for any realistic number of aquifers.
- Tracing.PanelsFor: given axes are a single Axes or a one-dimensional array (or list) of them. A two-dimensional array, whose `axes[0]` is a row of axes, is not modelled.
- SimpleAquifer.SimpleAquiferExtent: `_xsection_plot_inhoms` receives `x1` and `x2` before `set_xlim` and is not part of this model, so what it does with infinite values is not modelled.
- Tracing.TraceLines: the three start arrays are one list of start points. The `IndexError` for `ystart`/`zstart` shorter than `xstart` is not modelled.
- Tracing.TraceLines: the tracer's two result formats (tuple or dictionary) become one `Trace` value. The colour loop runs once per trace rather than once per panel; the aquifer lookup is a pure function, so both panels get the same colours.
- Tracing.TraceLines: the tracer and `find_aquifer_data` are total functions here. An exception either of them raises, such as a start point outside every aquifer, is not modelled.
- Tracing.TraceAll: a failure returns the error alone. The collections that earlier traces added to the panels, and those of the failing trace that were added before `set_ylim` read `aq`, stay on the axes in the code; the model does not report them.
- The progress dots (`print`) of `tracelines` are console output and are left out.
- The colour replication in `contour` (timflow/steady/plots.py:110-112 and timflow/transient/plots.py:162-164) is left out. It multiplies a list by a float.
- The transient module's plotting, the `__repr__` helpers, and the `contour`/`headalongline` base-class stubs that raise `NotImplementedError` are not part of this model.
- Python's negative indexing of lists (`axes[-1]`, `z[-1]`) is written out as the last index. Negative layer numbers do not occur in a layer list and are not modelled.

## Findings

| source | as written | input that shows it | evidently intended | confidence | as-written member | corrected member |
|---|---|---|---|---|---|---|
| timflow/steady/plots.py:313-317 | `tracelines` builds its section panel with `self.xsection(xy=..., figsize=figsize)`. `xsection` has no `figsize` parameter, so the keyword joins the `**kwargs` that a multi-layer `xsection` passes to `axhspan`, `text` and `axhline` (timflow/plots/plots.py:169-177, 491-496, 515-522, 664-670). matplotlib rejects an unknown property with an AttributeError, so the call fails before the first pathline is traced. | `tracelines(..., orientation="ver")` without `axes`, on any multi-layer model | a new figure with a section along the window's horizontal midline, as the single-column model gets; `Tracing.TraceLines` uses this corrected panel choice | high, not executed | Tracing.PanelsAsWritten, Tracing.VerticalOnlyRejected | Tracing.PanelsFor, Tracing.VerticalPanelOnMidline |
