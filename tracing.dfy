/**
 * `PlotSteady.tracelines` (timflow/steady/plots.py): the colour palette, the
 * choice of plan and vertical panels, and the loop that traces one pathline
 * per starting point and adds it to each panel as line segments coloured by
 * the layer each point lies in. The pathline tracer and the model's aquifer
 * lookup are code outside this model and enter as function parameters.
 */
module Tracing {
  import opened Wrappers
  import opened Geometry

  // ---------------------------------------------------------------- palette

  /** The `color` argument: `None`, a single colour name, a list of names, or anything else. */
  datatype ColourArg = DefaultCycle | Single(colour: string) | Listed(colours: seq<string>) | OtherType

  /** `n * c`: `n` copies of the list `c`, one after the other. */
  function Repeat(c: seq<string>, n: nat): (r: seq<string>)
  {
    if n == 0 then [] else c + Repeat(c, n - 1)
  }

  /** A positive multiple of a positive number is at least that number. */
  lemma MultipleAtLeast(m: int, d: int)
    requires 1 <= m && 0 < d
    ensures d <= m * d
  {
    assert m * d == (m - 1) * d + d;
    assert 0 <= (m - 1) * d;
  }

  /** A negative multiple of a positive number is at most its negation. */
  lemma MultipleAtMost(m: int, d: int)
    requires m <= -1 && 0 < d
    ensures m * d <= -d
  {
    assert m * d == (m + 1) * d - d;
    assert (m + 1) * d <= 0;
  }

  /** The only multiple of `d` strictly between `-d` and `d` is zero. */
  lemma SmallMultipleIsZero(m: int, d: int)
    requires 0 < d && -d < m * d < d
    ensures m == 0
  {
    if 1 <= m {
      MultipleAtLeast(m, d);
      assert false;
    } else if m <= -1 {
      MultipleAtMost(m, d);
      assert false;
    }
  }

  /** Multiplication distributes over a difference. */
  lemma MulSub(x: int, y: int, d: int)
    ensures (x - y) * d == x * d - y * d
  {
  }

  /** A remainder between 0 and `d` of a division by `d` is the remainder. */
  lemma ModUnique(a: int, d: int, q: int, r: int)
    requires 0 < d && a == q * d + r && 0 <= r < d
    ensures a % d == r
  {
    var q0, r0 := a / d, a % d;
    assert a == q0 * d + r0;
    MulSub(q, q0, d);
    SmallMultipleIsZero(q - q0, d);
  }

  /** Shifting by a whole period leaves the remainder unchanged. */
  lemma ModShift(k: int, d: int)
    requires 0 < d <= k
    ensures (k - d) % d == k % d
  {
    var q, r := k / d, k % d;
    assert k == q * d + r;
    MulSub(q, 1, d);
    ModUnique(k - d, d, q - 1, r);
  }

  /** The repeated list has `n` times the length of `c`. */
  lemma {:induction false} RepeatLength(c: seq<string>, n: nat)
    ensures |Repeat(c, n)| == n * |c|
  {
    if n > 0 {
      RepeatLength(c, n - 1);
      assert n * |c| == (n - 1) * |c| + |c|;
    }
  }

  /** The repeated list cycles through `c`: entry `k` is entry `k mod len(c)`. */
  lemma RepeatCycles(c: seq<string>, n: nat)
    requires 0 < |c|
    ensures forall k :: 0 <= k < |Repeat(c, n)| ==> Repeat(c, n)[k] == c[k % |c|]
  {
    forall k | 0 <= k < |Repeat(c, n)|
      ensures Repeat(c, n)[k] == c[k % |c|]
    {
      RepeatEntry(c, n, k);
    }
  }

  /** Entry `k` of the repeated list is entry `k mod len(c)` of `c`. */
  lemma {:induction false} RepeatEntry(c: seq<string>, n: nat, k: nat)
    requires 0 < |c| && k < |Repeat(c, n)|
    ensures Repeat(c, n)[k] == c[k % |c|]
  {
    var r := Repeat(c, n);
    assert r == c + Repeat(c, n - 1);
    if k < |c| {
      assert r[k] == c[k];
    } else {
      assert r[k] == Repeat(c, n - 1)[k - |c|];
      RepeatEntry(c, n - 1, k - |c|);
      ModShift(k, |c|);
    }
  }

  /** `ceil(naq / len(c))` copies are enough to give every aquifer a colour. */
  lemma CeilingCopies(naq: nat, len: nat)
    requires 0 < len
    ensures naq <= ((naq + len - 1) / len) * len
  {
    var n := (naq + len - 1) / len;
    assert naq + len - 1 == n * len + (naq + len - 1) % len;
  }

  /** `ceil(naq / len(c))` copies of a short non-empty list cover every aquifer and cycle through the list. */
  lemma RepeatedPalette(base: seq<string>, naq: nat)
    requires 0 < |base| < naq
    ensures var r := Repeat(base, (naq + |base| - 1) / |base|);
            naq <= |r| && forall k :: 0 <= k < |r| ==> r[k] == base[k % |base|]
  {
    var copies := (naq + |base| - 1) / |base|;
    RepeatLength(base, copies);
    RepeatCycles(base, copies);
    CeilingCopies(naq, |base|);
  }

  /** The list `c` before padding: the default cycle, `naq` copies of one colour, or the given list. */
  function BaseColours(arg: ColourArg, cycle: seq<string>, naq: nat): (c: seq<string>)
    requires !arg.OtherType?
    ensures arg.DefaultCycle? ==> c == cycle
    ensures arg.Single? ==> |c| == naq && forall k :: 0 <= k < naq ==> c[k] == arg.colour
    ensures arg.Listed? ==> c == arg.colours
  {
    match arg
    case DefaultCycle => cycle
    case Single(colour) => seq(naq, _ => colour)
    case Listed(colours) => colours
  }

  /**
   * The palette `c`: the base list, repeated `ceil(naq / len(c))` times when
   * it is shorter than the number of aquifers. An argument of any other type
   * leaves `c` unassigned, and an empty list shorter than `naq` divides by
   * zero.
   */
  function Palette(arg: ColourArg, cycle: seq<string>, naq: nat): (res: Result<seq<string>>)
    ensures res.Failure? <==> arg.OtherType? || (|BaseColours(arg, cycle, naq)| == 0 && 0 < naq)
    ensures res.Failure? ==> res.error == (if arg.OtherType? then UnboundLocal else ZeroDivisionError)
  {
    if arg.OtherType? then Failure(UnboundLocal)
    else
      var c := BaseColours(arg, cycle, naq);
      if |c| < naq then
        if |c| == 0 then Failure(ZeroDivisionError)
        else Ok(Repeat(c, (naq + |c| - 1) / |c|))
      else Ok(c)
  }

  /**
   * A palette that succeeds has a colour for every aquifer, entry `k` is entry
   * `k mod len` of the base list, and a base list that is long enough is used
   * unchanged.
   */
  lemma PaletteCovers(arg: ColourArg, cycle: seq<string>, naq: nat)
    requires Palette(arg, cycle, naq).Ok?
    ensures var c, base := Palette(arg, cycle, naq).value, BaseColours(arg, cycle, naq);
            naq <= |c| && (naq <= |base| ==> c == base) &&
            forall k :: 0 <= k < |c| ==> c[k] == base[k % |base|]
  {
    var base := BaseColours(arg, cycle, naq);
    if |base| < naq {
      assert Palette(arg, cycle, naq) == Ok(Repeat(base, (naq + |base| - 1) / |base|));
      RepeatedPalette(base, naq);
    } else {
      assert Palette(arg, cycle, naq) == Ok(base);
      LongPalette(base);
    }
  }

  /** A list indexes itself modulo its own length. */
  lemma LongPalette(base: seq<string>)
    ensures forall k :: 0 <= k < |base| ==> base[k] == base[k % |base|]
  {
    forall k | 0 <= k < |base|
      ensures base[k] == base[k % |base|]
    {
      ModUnique(k, |base|, 0, k);
    }
  }

  /** A single colour colours every aquifer with it. */
  lemma SingleColourEverywhere(colour: string, naq: nat)
    ensures Palette(Single(colour), [], naq).Ok?
    ensures var c := Palette(Single(colour), [], naq).value;
            |c| == naq && forall k :: 0 <= k < naq ==> c[k] == colour
  {
  }

  // ----------------------------------------------------------------- panels

  /** Where a panel comes from: the two panels of a new plan-above-section figure, a new figure, or the caller's axes. */
  datatype Panel =
    | CompositeTop(win: Window)
    | CompositeBottom(xy: Segment)
    | NewTopview(win: Window)
    | NewXsection(xy: Segment)
    | Given(index: nat)          // `axes[index]`, with `axes[-1]` written as the last index

  /** The panels the pathlines go to: plan view (`"hor"`) and vertical section (`"ver"`). */
  datatype Panels = Panels(hor: Option<Panel>, ver: Option<Panel>)

  /** The window used when none is given: `[-1e30, 1e30, -1e30, 1e30]`. */
  const Huge: real := 1_000_000_000_000_000_000_000_000_000_000.0
  const DefaultWindow := Window(-Huge, Huge, -Huge, Huge)

  /** `orientation[:3]`. */
  function Prefix3(o: string): (p: string)
    ensures |p| <= 3 && p <= o
  {
    if |o| <= 3 then o else o[..3]
  }

  /**
   * The line `[(x1, ym), (x2, ym)]` of a section drawn on its own: the same
   * line `topview_and_xsection` uses in mode "x", across the whole window at
   * its vertical midpoint, so inside the window whenever it is not empty.
   */
  function MidLine(win: Window): (s: Segment)
    ensures CompositeLine(win, "x") == Ok(s)
    ensures win.y1 <= win.y2 ==> win.y1 <= s.start.y <= win.y2
  {
    var ym := Mean(win.y1, win.y2);
    Segment(Point(win.x1, ym), Point(win.x2, ym))
  }

  /** The `axes` argument of `tracelines`: none, a single matplotlib Axes, or an array (or list) of `count` axes. */
  datatype AxesArg = NoAxes | SingleAxes | AxesArray(count: nat)

  /** How many given axes an orientation reads: two for `"both"`, one for `"hor..."` and `"ver..."`, none otherwise. */
  function AxesNeeded(orientation: string): (n: nat)
    ensures n <= 2
  {
    if orientation == "both" then 2
    else if Prefix3(orientation) == "hor" || Prefix3(orientation) == "ver" then 1
    else 0
  }

  /**
   * The axes dictionary of `tracelines`: `"both"` gives the two panels of
   * `topview_and_xsection`, or `axes[0]` and `axes[1]`; otherwise an
   * orientation starting with `"hor"` gives a plan view or `axes[0]`, and one
   * starting with `"ver"` a cross-section along the window's horizontal
   * midline or `axes[-1]`; anything else gives no panel. Subscripting a single
   * Axes is a TypeError, and an array too short for the subscript an
   * IndexError.
   */
  function PanelsFor(orientation: string, axes: AxesArg, win: Window): (res: Result<Panels>)
    ensures res.Failure? <==> 0 < AxesNeeded(orientation) &&
                              (axes.SingleAxes? || (axes.AxesArray? && axes.count < AxesNeeded(orientation)))
    ensures res.Failure? ==> res.error == (if axes.SingleAxes? then TypeError else IndexError)
    ensures res.Ok? ==>
              var p := res.value;
              (p.hor.Some? <==> orientation == "both" || Prefix3(orientation) == "hor") &&
              (p.ver.Some? <==> orientation == "both" || Prefix3(orientation) == "ver") &&
              (axes.NoAxes? ==> (p.hor.Some? ==> !p.hor.value.Given?) && (p.ver.Some? ==> !p.ver.value.Given?))
    ensures res.Ok? && axes.AxesArray? ==>
              var p := res.value;
              (p.hor.Some? ==> p.hor.value.Given? && p.hor.value.index < axes.count) &&
              (p.ver.Some? ==> p.ver.value.Given? && p.ver.value.index < axes.count) &&
              (p.hor.Some? && p.ver.Some? ==> p.hor.value.index != p.ver.value.index)
    ensures res.Ok? && axes.AxesArray? ==>
              (res.value.hor.Some? ==> res.value.hor.value == Given(0)) &&
              (res.value.ver.Some? ==> res.value.ver.value == Given(if orientation == "both" then 1 else axes.count - 1))
    ensures res.Ok? && axes.NoAxes? && res.value.hor.Some? ==>
              res.value.hor.value == (if orientation == "both" then CompositeTop(win) else NewTopview(win))
  {
    if orientation == "both" then
      match axes
      case NoAxes => Ok(Panels(Some(CompositeTop(win)), Some(CompositeBottom(MidLine(win)))))
      case SingleAxes => Failure(TypeError)
      case AxesArray(n) => if n < 2 then Failure(IndexError) else Ok(Panels(Some(Given(0)), Some(Given(1))))
    else if Prefix3(orientation) == "hor" then
      match axes
      case NoAxes => Ok(Panels(Some(NewTopview(win)), None))
      case SingleAxes => Failure(TypeError)
      case AxesArray(n) => if n == 0 then Failure(IndexError) else Ok(Panels(Some(Given(0)), None))
    else if Prefix3(orientation) == "ver" then
      match axes
      case NoAxes => Ok(Panels(None, Some(NewXsection(MidLine(win)))))
      case SingleAxes => Failure(TypeError)
      case AxesArray(n) => if n == 0 then Failure(IndexError) else Ok(Panels(None, Some(Given(n - 1))))
    else Ok(Panels(None, None))
  }

  /**
   * The panels as the code builds them. For `"ver"` without axes the section
   * comes from `xsection(xy=..., figsize=figsize)`; `xsection` has no
   * `figsize` parameter, so the keyword lands in the `**kwargs` it passes on
   * to the `axhspan`, `text` and `axhline` calls of a multi-layer model, and
   * matplotlib rejects the unknown property. Only the single-column
   * cross-section, which does not pass `**kwargs` on, draws the panel.
   */
  function PanelsAsWritten(orientation: string, axes: AxesArg, win: Window, singleColumn: bool): (res: Result<Panels>)
    ensures var cut := Prefix3(orientation) == "ver" && axes.NoAxes? && !singleColumn;
            (cut ==> res == Failure(AttributeError("figsize")) &&
                     PanelsFor(orientation, axes, win) == Ok(Panels(None, Some(NewXsection(MidLine(win)))))) &&
            (!cut ==> res == PanelsFor(orientation, axes, win))
  {
    assert Prefix3("both") == "bot";
    if Prefix3(orientation) == "ver" && axes.NoAxes? && !singleColumn then Failure(AttributeError("figsize"))
    else PanelsFor(orientation, axes, win)
  }

  /**
   * For a multi-layer model, `orientation="ver"` without axes fails as
   * written, where the evident intent is a section along the window's
   * horizontal midline.
   */
  lemma VerticalOnlyRejected(win: Window)
    ensures PanelsAsWritten("ver", NoAxes, win, false) == Failure(AttributeError("figsize"))
    ensures PanelsFor("ver", NoAxes, win) == Ok(Panels(None, Some(NewXsection(MidLine(win)))))
  {
  }

  /**
   * Without given axes there is always a choice of panels, and the vertical
   * panel is a cross-section along the window's horizontal midline, whether
   * it is drawn on its own or below the plan view.
   */
  lemma VerticalPanelOnMidline(orientation: string, win: Window)
    ensures PanelsFor(orientation, NoAxes, win).Ok?
    ensures var p := PanelsFor(orientation, NoAxes, win).value;
            p.ver.Some? ==> (p.ver.value.CompositeBottom? || p.ver.value.NewXsection?) && p.ver.value.xy == MidLine(win)
  {
  }

  // --------------------------------------------------------------- segments

  /** One point of a traced pathline: position and time. */
  datatype Sample = Sample(x: real, y: real, z: real, t: real)

  /** What the tracer returns with `returnlayers=True`: the points and the layer of each. */
  datatype Trace = Trace(xyzt: seq<Sample>, layers: seq<nat>)

  /** `xyzt[:, [0, 1]]`: the plan-view points. */
  function PlanPoints(xyzt: seq<Sample>): (p: seq<Point>)
    ensures |p| == |xyzt| && forall k :: 0 <= k < |p| ==> p[k] == Point(xyzt[k].x, xyzt[k].y)
  {
    seq(|xyzt|, k requires 0 <= k < |xyzt| => Point(xyzt[k].x, xyzt[k].y))
  }

  /** `xyzt[:, [0, 2]]`: the points in the vertical section, x against elevation. */
  function SectionPoints(xyzt: seq<Sample>): (p: seq<Point>)
    ensures |p| == |xyzt| && forall k :: 0 <= k < |p| ==> p[k] == Point(xyzt[k].x, xyzt[k].z)
  {
    seq(|xyzt|, k requires 0 <= k < |xyzt| => Point(xyzt[k].x, xyzt[k].z))
  }

  /** `np.concatenate([points[:-1], points[1:]], axis=1)`: the segment from each point to the next. */
  function Segments(pts: seq<Point>): (segs: seq<Segment>)
    ensures |segs| == if |pts| == 0 then 0 else |pts| - 1
  {
    if |pts| == 0 then [] else seq(|pts| - 1, k requires 0 <= k < |pts| - 1 => Segment(pts[k], pts[k + 1]))
  }

  /** The points a chain of segments passes through: the first start, then every end. */
  function Vertices(segs: seq<Segment>): (pts: seq<Point>)
    requires 0 < |segs|
    ensures |pts| == |segs| + 1
  {
    [segs[0].start] + seq(|segs|, k requires 0 <= k < |segs| => segs[k].end)
  }

  /**
   * The segments form one connected polyline: each ends where the next
   * starts, and walking them gives back exactly the pathline's points.
   */
  lemma SegmentsRoundTrip(pts: seq<Point>)
    requires 2 <= |pts|
    ensures forall k :: 0 < k < |Segments(pts)| ==> Segments(pts)[k - 1].end == Segments(pts)[k].start
    ensures Vertices(Segments(pts)) == pts
  {
    var v := Vertices(Segments(pts));
    forall k | 0 <= k < |pts|
      ensures v[k] == pts[k]
    {
      if 0 < k {
        assert v[k] == Segments(pts)[k - 1].end;
      }
    }
  }

  // ---------------------------------------------------------------- colours

  /** What `find_aquifer_data` returns that the colouring reads: layer types, aquifer numbers, and layer boundaries. */
  datatype AquiferData = AquiferData(ltype: seq<char>, layernumber: seq<nat>, z: seq<real>)

  /** Colour of a point in layer `l`: its aquifer's palette colour in an aquifer, black in a leaky layer. */
  function ColourAt(c: seq<string>, aq: AquiferData, l: nat): (res: Result<string>)
    ensures res.Failure? ==> res.error == IndexError
    ensures res.Ok? && l < |aq.ltype| && aq.ltype[l] != 'a' ==> res.value == "k"
  {
    if |aq.ltype| <= l then Failure(IndexError)
    else if aq.ltype[l] == 'a' then
      if |aq.layernumber| <= l || |c| <= aq.layernumber[l] then Failure(IndexError)
      else Ok(c[aq.layernumber[l]])
    else Ok("k")
  }

  /**
   * The number of points the colour loop visits: `zip` stops at the shorter
   * list. Written as the floor of a real minimum because an integer `if` here
   * makes every proof that unfolds `TraceStep` split cases, and those proofs
   * then run out of resource.
   */
  function ZipLength(tr: Trace): (n: nat)
    ensures n <= |tr.xyzt| && n <= |tr.layers|
  {
    Min(|tr.xyzt| as real, |tr.layers| as real).Floor
  }

  /** The aquifer data at point `k` of a trace. */
  function AquiferAt(lookup: (real, real) -> AquiferData, tr: Trace, k: nat): AquiferData
    requires k < |tr.xyzt|
  {
    lookup(tr.xyzt[k].x, tr.xyzt[k].y)
  }

  /** The colours of the first `n` zipped points, or the first indexing error. */
  function Colours(c: seq<string>, lookup: (real, real) -> AquiferData, tr: Trace, n: nat): (res: Result<seq<string>>)
    requires n <= ZipLength(tr)
    ensures res.Ok? ==> |res.value| == n
    ensures res.Failure? ==> res.error == IndexError
  {
    if n == 0 then Ok([])
    else match Colours(c, lookup, tr, n - 1)
      case Failure(e) => Failure(e)
      case Ok(cs) =>
        match ColourAt(c, AquiferAt(lookup, tr, n - 1), tr.layers[n - 1])
        case Failure(e) => Failure(e)
        case Ok(colour) => Ok(cs + [colour])
  }

  /** The colours exist exactly when every point's colour does, and then they are those colours in order. */
  lemma {:induction false} ColoursPointwise(c: seq<string>, lookup: (real, real) -> AquiferData, tr: Trace, n: nat)
    requires n <= ZipLength(tr)
    ensures Colours(c, lookup, tr, n).Ok? <==>
              forall k :: 0 <= k < n ==> ColourAt(c, AquiferAt(lookup, tr, k), tr.layers[k]).Ok?
    ensures Colours(c, lookup, tr, n).Ok? ==>
              forall k :: 0 <= k < n ==> Colours(c, lookup, tr, n).value[k] == ColourAt(c, AquiferAt(lookup, tr, k), tr.layers[k]).value
  {
    if n > 0 {
      ColoursPointwise(c, lookup, tr, n - 1);
    }
  }

  /** Once a point has no colour, no longer prefix has colours either. */
  lemma {:induction false} ColoursFailureSticks(c: seq<string>, lookup: (real, real) -> AquiferData, tr: Trace, m: nat, n: nat)
    requires m <= n <= ZipLength(tr)
    requires Colours(c, lookup, tr, m).Failure?
    ensures Colours(c, lookup, tr, n) == Colours(c, lookup, tr, m)
  {
    if m < n {
      ColoursFailureSticks(c, lookup, tr, m, n - 1);
    }
  }

  /** The aquifer data is consistent with `naq` aquifers: one type and number per layer, aquifer numbers below `naq`. */
  predicate Consistent(aq: AquiferData, naq: nat)
  {
    |aq.layernumber| == |aq.ltype| &&
    forall l :: 0 <= l < |aq.ltype| && aq.ltype[l] == 'a' ==> aq.layernumber[l] < naq
  }

  /**
   * With a palette that succeeded and consistent aquifer data, a point in an
   * existing layer always gets a colour: the palette's colour of its aquifer
   * number, or black in a leaky layer.
   */
  lemma ColourDefined(arg: ColourArg, cycle: seq<string>, naq: nat, aq: AquiferData, l: nat)
    requires Palette(arg, cycle, naq).Ok? && Consistent(aq, naq) && l < |aq.ltype|
    ensures var c := Palette(arg, cycle, naq).value;
            ColourAt(c, aq, l).Ok? &&
            (aq.ltype[l] == 'a' ==> aq.layernumber[l] < |c| && ColourAt(c, aq, l).value == c[aq.layernumber[l]]) &&
            (aq.ltype[l] != 'a' ==> ColourAt(c, aq, l).value == "k")
  {
    PaletteCovers(arg, cycle, naq);
  }

  /**
   * The colour loop: one colour per zipped point, looking up the aquifer at
   * each point's plan position, stopping at the first indexing error.
   */
  method PointColours(c: seq<string>, lookup: (real, real) -> AquiferData, tr: Trace) returns (res: Result<seq<string>>)
    ensures res == Colours(c, lookup, tr, ZipLength(tr))
  {
    var colours: seq<string> := [];
    var n := ZipLength(tr);
    var i := 0;
    while i < n
      invariant 0 <= i <= n
      invariant Colours(c, lookup, tr, i) == Ok(colours)
    {
      var aq := lookup(tr.xyzt[i].x, tr.xyzt[i].y);
      var colour := ColourAt(c, aq, tr.layers[i]);
      if colour.Failure? {
        ColoursFailureSticks(c, lookup, tr, i + 1, n);
        return Failure(colour.error);
      }
      colours := colours + [colour.value];
      i := i + 1;
    }
    return Ok(colours);
  }

  // -------------------------------------------------------------- the loop

  /** What is added to a panel: a coloured line collection, or the vertical limits of the section. */
  datatype Orient = Hor | Ver
  datatype PanelDraw = AddCollection(panel: Orient, segments: seq<Segment>, colours: seq<string>) | SetYLim(lo: real, hi: real)

  /** The number of things added to the panels per trace: one collection per panel, and the section's limits. */
  function PerTrace(panels: Panels): (k: nat)
    ensures k <= 3
  {
    (if panels.hor.Some? then 1 else 0) + (if panels.ver.Some? then 2 else 0)
  }

  /**
   * The drawing for one trace given the aquifer data `last` that the loop
   * variable `aq` holds before it: a plan collection, then a section
   * collection and the section's limits from the model top and base that
   * `aq` holds after the colour loops. `aq` keeps its value from earlier
   * traces when this one has no zipped points, and was never assigned when no
   * trace so far had any.
   */
  function TraceStep(panels: Panels, c: seq<string>, lookup: (real, real) -> AquiferData, tr: Trace, last: Option<AquiferData>)
    : (res: Result<(seq<PanelDraw>, Option<AquiferData>)>)
    ensures res.Ok? && panels.ver.Some? ==> res.value.1.Some?
    ensures res.Ok? ==> |res.value.0| == PerTrace(panels)
  {
    if panels.hor.None? && panels.ver.None? then Ok(([], last))
    else
      var cols := Colours(c, lookup, tr, ZipLength(tr));
      if cols.Failure? then Failure(cols.error)
      else
        var n := ZipLength(tr);
        var aq := if n == 0 then last else Some(AquiferAt(lookup, tr, n - 1));
        var hor := if panels.hor.Some? then [AddCollection(Hor, Segments(PlanPoints(tr.xyzt)), cols.value)] else [];
        if panels.ver.None? then Ok((hor, aq))
        else if aq.None? then Failure(UnboundLocal)
        else if |aq.value.z| == 0 then Failure(IndexError)
        else
          var ver := [AddCollection(Ver, Segments(SectionPoints(tr.xyzt)), cols.value),
                      SetYLim(aq.value.z[|aq.value.z| - 1], aq.value.z[0])];
          Ok((hor + ver, aq))
  }

  /**
   * The body of the loop for one trace: the colour loop when there is any
   * panel, a collection on each panel, and the section's vertical limits.
   */
  method DrawTrace(panels: Panels, c: seq<string>, lookup: (real, real) -> AquiferData, trace: Trace, last: Option<AquiferData>)
    returns (res: Result<(seq<PanelDraw>, Option<AquiferData>)>)
    ensures res == TraceStep(panels, c, lookup, trace, last)
  {
    var aq := last;
    var added: seq<PanelDraw> := [];
    if panels.hor.Some? || panels.ver.Some? {
      var cols := PointColours(c, lookup, trace);
      if cols.Failure? {
        return Failure(cols.error);
      }
      var n := ZipLength(trace);
      if n > 0 {
        aq := Some(lookup(trace.xyzt[n - 1].x, trace.xyzt[n - 1].y));
      }
      if panels.hor.Some? {
        added := [AddCollection(Hor, Segments(PlanPoints(trace.xyzt)), cols.value)];
      }
      if panels.ver.Some? {
        if aq.None? {
          return Failure(UnboundLocal);
        }
        if |aq.value.z| == 0 {
          return Failure(IndexError);
        }
        added := added + [AddCollection(Ver, Segments(SectionPoints(trace.xyzt)), cols.value),
                          SetYLim(aq.value.z[|aq.value.z| - 1], aq.value.z[0])];
      }
    }
    return Ok((added, aq));
  }

  /** One starting point of a pathline. */
  datatype Start = Start(x: real, y: real, z: real)

  /** The tracer's signature: start, window and the `metadata` flag. */
  type Tracer = (Start, Window, bool) -> Trace

  /** The drawing for the first `n` traces, or the first error. */
  function TraceFold(panels: Panels, c: seq<string>, lookup: (real, real) -> AquiferData, ts: seq<Trace>, n: nat)
    : (res: Result<(seq<PanelDraw>, Option<AquiferData>)>)
    requires n <= |ts|
  {
    if n == 0 then Ok(([], None))
    else match TraceFold(panels, c, lookup, ts, n - 1)
      case Failure(e) => Failure(e)
      case Ok(acc) =>
        match TraceStep(panels, c, lookup, ts[n - 1], acc.1)
        case Failure(e) => Failure(e)
        case Ok(step) => Ok((acc.0 + step.0, step.1))
  }

  /** Folding in trace `i` after the fold over the traces before it. */
  lemma TraceFoldNext(panels: Panels, c: seq<string>, lookup: (real, real) -> AquiferData, ts: seq<Trace>, i: nat)
    requires i < |ts|
    ensures var prev := TraceFold(panels, c, lookup, ts, i);
            var step := if prev.Ok? then TraceStep(panels, c, lookup, ts[i], prev.value.1) else Failure(prev.error);
            TraceFold(panels, c, lookup, ts, i + 1) ==
            if step.Failure? then Failure(step.error) else Ok((prev.value.0 + step.value.0, step.value.1))
  {
  }

  /** `(i + 1) k == i k + k`. */
  lemma MulSucc(i: nat, k: nat)
    ensures (i + 1) * k == i * k + k
  {
  }

  /** Every trace adds the same number of things: a collection per panel and, in the section, its limits. */
  lemma {:induction false} TraceFoldCount(panels: Panels, c: seq<string>, lookup: (real, real) -> AquiferData, ts: seq<Trace>, n: nat)
    requires n <= |ts|
    requires TraceFold(panels, c, lookup, ts, n).Ok?
    ensures |TraceFold(panels, c, lookup, ts, n).value.0| == n * PerTrace(panels)
  {
    if n > 0 {
      var i := n - 1;
      TraceFoldNext(panels, c, lookup, ts, i);
      TraceFoldCount(panels, c, lookup, ts, i);
      MulSucc(i, PerTrace(panels));
      assert i + 1 == n;
    }
  }

  /** Once the loop has failed it stays failed with the same error. */
  lemma {:induction false} TraceFoldFailureSticks(panels: Panels, c: seq<string>, lookup: (real, real) -> AquiferData,
                                                  ts: seq<Trace>, m: nat, n: nat)
    requires m <= n <= |ts|
    requires TraceFold(panels, c, lookup, ts, m).Failure?
    ensures TraceFold(panels, c, lookup, ts, n) == TraceFold(panels, c, lookup, ts, m)
  {
    if m < n {
      TraceFoldFailureSticks(panels, c, lookup, ts, m, n - 1);
    }
  }

  /**
   * The section's limits read `aq` unassigned exactly when there is a
   * vertical panel, at least one trace, and the first trace has no zipped
   * points: after any trace with points `aq` is set for good.
   */
  lemma {:induction false} UnboundExactly(panels: Panels, c: seq<string>, lookup: (real, real) -> AquiferData, ts: seq<Trace>, n: nat)
    requires 0 < n <= |ts|
    ensures TraceFold(panels, c, lookup, ts, n) == Failure(UnboundLocal) <==>
              panels.ver.Some? && ZipLength(ts[0]) == 0
  {
    var first := TraceFold(panels, c, lookup, ts, 1);
    assert TraceFold(panels, c, lookup, ts, 0) == Ok(([], None));
    if panels.ver.Some? && ZipLength(ts[0]) == 0 {
      assert Colours(c, lookup, ts[0], 0) == Ok([]);
      assert first == Failure(UnboundLocal);
      TraceFoldFailureSticks(panels, c, lookup, ts, 1, n);
    } else {
      UnboundNever(panels, c, lookup, ts, n);
    }
  }

  /** When the first trace has zipped points or there is no section, no later step reads `aq` unassigned. */
  lemma {:induction false} UnboundNever(panels: Panels, c: seq<string>, lookup: (real, real) -> AquiferData, ts: seq<Trace>, n: nat)
    requires 0 < n <= |ts|
    requires !(panels.ver.Some? && ZipLength(ts[0]) == 0)
    ensures TraceFold(panels, c, lookup, ts, n) != Failure(UnboundLocal)
    ensures TraceFold(panels, c, lookup, ts, n).Ok? && panels.ver.Some? ==> TraceFold(panels, c, lookup, ts, n).value.1.Some?
  {
    if n == 1 {
      assert TraceFold(panels, c, lookup, ts, 0) == Ok(([], None));
    } else {
      UnboundNever(panels, c, lookup, ts, n - 1);
      var prev := TraceFold(panels, c, lookup, ts, n - 1);
      if prev.Ok? {
        var step := TraceStep(panels, c, lookup, ts[n - 1], prev.value.1);
        assert step != Failure(UnboundLocal);
      }
    }
  }

  /** The traces of all starting points, in order, each traced in window `w` with the `metadata` flag `meta`. */
  function Traces(tracer: Tracer, starts: seq<Start>, w: Window, meta: bool): (ts: seq<Trace>)
    ensures |ts| == |starts|
    ensures forall i :: 0 <= i < |starts| ==> ts[i] == tracer(starts[i], w, meta)
  {
    seq(|starts|, i requires 0 <= i < |starts| => tracer(starts[i], w, meta))
  }

  /**
   * One pass of the loop over the starting points: trace `i` drawn after the
   * traces before it, which drew `draws` and left `aq` behind.
   */
  method DrawNext(panels: Panels, c: seq<string>, lookup: (real, real) -> AquiferData, ghost ts: seq<Trace>, i: nat,
                  trace: Trace, draws: seq<PanelDraw>, aq: Option<AquiferData>)
    returns (next: Result<(seq<PanelDraw>, Option<AquiferData>)>)
    requires i < |ts| && trace == ts[i] && TraceFold(panels, c, lookup, ts, i) == Ok((draws, aq))
    ensures next == TraceFold(panels, c, lookup, ts, i + 1)
  {
    var step := DrawTrace(panels, c, lookup, trace, aq);
    TraceFoldNext(panels, c, lookup, ts, i);
    if step.Failure? {
      return Failure(step.error);
    }
    return Ok((draws + step.value.0, step.value.1));
  }

  /**
   * The loop over the starting points in `tracelines`: traces each one,
   * keeps the traces when they are to be returned, and draws each on the
   * panels, stopping at the first error.
   */
  method TraceAll(panels: Panels, c: seq<string>, lookup: (real, real) -> AquiferData,
                  tracer: Tracer, starts: seq<Start>, w: Window, meta: bool, returnTraces: bool)
    returns (fold: Result<(seq<PanelDraw>, Option<AquiferData>)>, traces: seq<Trace>)
    ensures fold == TraceFold(panels, c, lookup, Traces(tracer, starts, w, meta), |starts|)
    ensures fold.Ok? && returnTraces ==> traces == Traces(tracer, starts, w, meta)
  {
    ghost var all := Traces(tracer, starts, w, meta);
    traces := [];
    var draws: seq<PanelDraw> := [];
    var aq: Option<AquiferData> := None;
    var i := 0;
    while i < |starts|
      invariant 0 <= i <= |starts|
      invariant TraceFold(panels, c, lookup, all, i) == Ok((draws, aq))
      invariant returnTraces ==> |traces| == i && forall j :: 0 <= j < i ==> traces[j] == all[j]
    {
      var trace := tracer(starts[i], w, meta);
      if returnTraces {
        traces := traces + [trace];
      }
      var next := DrawNext(panels, c, lookup, all, i, trace, draws, aq);
      if next.Failure? {
        TraceFoldFailureSticks(panels, c, lookup, all, i + 1, |starts|);
        return next, traces;
      }
      draws, aq := next.value.0, next.value.1;
      i := i + 1;
    }
    return Ok((draws, aq)), traces;
  }

  /** What `tracelines` leaves behind: the panels it drew on, what it added to them, and the traces it returns. */
  datatype Outcome = Outcome(panels: Panels, draws: seq<PanelDraw>, traces: Option<seq<Trace>>)

  /**
   * `tracelines`: the palette first, then the panels, then one pathline per
   * starting point in order. Without `return_traces` the tracer is always
   * asked for metadata; with it the traces are returned exactly as traced, one
   * per starting point. The drawing is the fold over the traces and fails
   * with its first error. The panels are the intended ones of `PanelsFor`:
   * for `"ver"` without axes in a multi-layer model the code as written stops
   * with the error of `PanelsAsWritten` instead.
   */
  method TraceLines(starts: seq<Start>, tracer: Tracer, lookup: (real, real) -> AquiferData,
                    colour: ColourArg, cycle: seq<string>, naq: nat, orientation: string, axes: AxesArg,
                    win: Option<Window>, returnTraces: bool, metadata: bool)
    returns (res: Result<Outcome>)
    ensures var w := if win.Some? then win.value else DefaultWindow;
            var meta := metadata || !returnTraces;
            var palette := Palette(colour, cycle, naq);
            var panels := PanelsFor(orientation, axes, w);
            if palette.Failure? then res == Failure(palette.error)
            else if panels.Failure? then res == Failure(panels.error)
            else
              var fold := TraceFold(panels.value, palette.value, lookup, Traces(tracer, starts, w, meta), |starts|);
              (res.Failure? <==> fold.Failure?) &&
              (res.Failure? ==> res.error == fold.error) &&
              (res.Ok? ==> res.value.panels == panels.value && res.value.draws == fold.value.0 &&
                           res.value.traces == if returnTraces then Some(Traces(tracer, starts, w, meta)) else None)
  {
    var w := if win.Some? then win.value else DefaultWindow;
    var palette := Palette(colour, cycle, naq);
    if palette.Failure? {
      return Failure(palette.error);
    }
    var chosen := PanelsFor(orientation, axes, w);
    if chosen.Failure? {
      return Failure(chosen.error);
    }
    var panels := chosen.value;
    var meta := metadata;
    if !returnTraces {
      meta := true;
    }
    var fold, traces := TraceAll(panels, palette.value, lookup, tracer, starts, w, meta, returnTraces);
    if fold.Failure? {
      return Failure(fold.error);
    }
    return Ok(Outcome(panels, fold.value.0, if returnTraces then Some(traces) else None));
  }
}
