/**
 * The multi-layer cross-section of `PlotBase.xsection` (timflow/plots/plots.py):
 * the starting values of the leaky-layer and aquifer counters, the walk over
 * the layer stack that shades leaky layers and places labels and parameter
 * text while advancing the counters, the separators at aquifer-aquifer
 * boundaries, and the composition of these into one cross-section.
 *
 * The drawing surface is modelled as the list of draw commands issued, in
 * order. A layer stack is `ltype` (one character per layer, 'a' for an
 * aquifer, 'l' for a leaky layer) with the layer boundary elevations `z`,
 * one more than there are layers.
 */
module CrossSection {
  import opened Wrappers
  import opened Geometry

  /** The storage term an aquifer's parameter text shows. */
  datatype Storage = NoStorage | PhreaticStorage | SpecificStorage

  /**
   * A text placed on the cross-section. Parameter values and their number
   * formatting are not modelled: a caption records which parameters it shows
   * and the counter value that indexes them (`c[lli]`, `kaq[aqi]`, ...).
   */
  datatype Caption =
    | LeakyLabel(index: int)
    | AquiferLabel(index: int)
    | LeakyParams(index: int, withStorage: bool)
    | AquiferParams(index: int, withAnisotropy: bool, storage: Storage)

  /** The draw commands a cross-section issues. */
  datatype Draw =
    | Band(ymin: real, ymax: real)        // grey `axhspan` over a leaky layer
    | Text(x: real, y: real, caption: Caption)
    | Separator(y: real)                  // zero-height `axhspan` at an aquifer-aquifer boundary
    | Rule(y: real, thick: bool)          // `axhline` at the top (thin) and the base (thick)
    | XLimits(lo: real, hi: real)
    | HideXTicks

  /** What the parameter text depends on: steady or transient, the 3D model, a phreatic top. */
  datatype Variant = Variant(transient: bool, model3D: bool, phreaticTop: bool)

  /** The horizontal placement `r0`, `r` and the `labels`/`params` flags of one cross-section. */
  datatype Placement = Placement(r0: real, r: real, labels: bool, params: bool, variant: Variant)

  /** The running leaky-layer counter `lli` and aquifer counter `aqi`. */
  datatype Counters = Counters(leaky: int, aquifer: int)

  /** Number of layers of type `t` in `s`. */
  function CountOf(s: seq<char>, t: char): nat
  {
    if s == [] then 0 else CountOf(s[..|s| - 1], t) + (if s[|s| - 1] == t then 1 else 0)
  }

  /**
   * `_get_layer_indices`: the aquifer counter starts at 0; the leaky counter
   * starts at 1 exactly when the top layer is an aquifer, else at 0. An empty
   * stack has no top layer to look at, and reading it is an IndexError.
   */
  function StartIndices(ltype: seq<char>): (res: Result<Counters>)
    ensures res.Failure? <==> |ltype| == 0
    ensures res.Failure? ==> res.error == IndexError
    ensures res.Ok? ==> res.value.aquifer == 0
    ensures res.Ok? ==> (res.value.leaky == 1 <==> ltype[0] == 'a')
    ensures res.Ok? ==> (res.value.leaky == 0 <==> ltype[0] != 'a')
  {
    if |ltype| == 0 then Failure(IndexError)
    else Ok(Counters(if ltype[0] == 'a' then 1 else 0, 0))
  }

  /**
   * Horizontal position of a layer label: the middle of the line, or its
   * first quarter when parameter text shares the layer.
   */
  function LabelX(r0: real, r: real, params: bool): (x: real)
    ensures 0.0 <= r ==> r0 <= x <= r0 + r
    ensures x == r0 + (if params then 0.25 else 0.5) * r
  {
    if !params then r0 + 0.5 * r else r0 + 0.25 * r
  }

  /**
   * Horizontal position of a layer's parameter text: the middle of the line,
   * or its third quarter when a label shares the layer, to the right of it.
   */
  function ParamX(r0: real, r: real, labels: bool): (x: real)
    ensures 0.0 <= r ==> r0 <= x <= r0 + r
    ensures x == r0 + (if labels then 0.75 else 0.5) * r
    ensures 0.0 < r && labels ==> LabelX(r0, r, true) < x
  {
    if labels then r0 + 0.75 * r else r0 + 0.5 * r
  }

  /**
   * The storage term of aquifer `aqi`'s parameter text: none in a steady
   * model; in a transient model the storativity for the top aquifer under a
   * phreatic top, and the specific storage for every other aquifer.
   */
  function AquiferStorage(v: Variant, aqi: int): (s: Storage)
    ensures s == NoStorage <==> !v.transient
    ensures s == PhreaticStorage <==> v.transient && aqi == 0 && v.phreaticTop
    ensures s == SpecificStorage <==> v.transient && (aqi != 0 || !v.phreaticTop)
  {
    if !v.transient then NoStorage
    else if aqi == 0 && v.phreaticTop then PhreaticStorage
    else SpecificStorage
  }

  /**
   * The counters when the walk reaches layer `i`: each advances by one per
   * layer of its own type passed, and only when labels or parameters are drawn.
   */
  function CountersAt(ltype: seq<char>, pl: Placement, start: Counters, i: nat): Counters
    requires i <= |ltype|
  {
    if pl.labels || pl.params then
      Counters(start.leaky + CountOf(ltype[..i], 'l'), start.aquifer + CountOf(ltype[..i], 'a'))
    else
      start
  }

  /** A layer's label at height `mid`, when labels are drawn. */
  function LabelDraws(pl: Placement, mid: real, caption: Caption): seq<Draw>
  {
    if pl.labels then [Text(LabelX(pl.r0, pl.r, pl.params), mid, caption)] else []
  }

  /** A layer's parameter text at height `mid`, when parameters are drawn. */
  function ParamDraws(pl: Placement, mid: real, caption: Caption): seq<Draw>
  {
    if pl.params then [Text(ParamX(pl.r0, pl.r, pl.labels), mid, caption)] else []
  }

  /** What the walk draws for layer `i` if it is a leaky layer: the grey band, its label, its parameter text. */
  function LeakyLayerDraws(ltype: seq<char>, z: seq<real>, pl: Placement, i: nat, c: Counters): seq<Draw>
    requires i < |ltype| && |z| == |ltype| + 1
  {
    if ltype[i] == 'l' then
      var mid := Mean(z[i], z[i + 1]);
      [Band(z[i + 1], z[i])]
      + LabelDraws(pl, mid, LeakyLabel(c.leaky))
      + ParamDraws(pl, mid, LeakyParams(c.leaky, pl.variant.transient))
    else []
  }

  /** What the walk draws for layer `i` if it is an aquifer: its label and its parameter text. */
  function AquiferLayerDraws(ltype: seq<char>, z: seq<real>, pl: Placement, i: nat, c: Counters): seq<Draw>
    requires i < |ltype| && |z| == |ltype| + 1
  {
    if ltype[i] == 'a' then
      var mid := Mean(z[i], z[i + 1]);
      LabelDraws(pl, mid, AquiferLabel(c.aquifer))
      + ParamDraws(pl, mid, AquiferParams(c.aquifer, pl.variant.model3D, AquiferStorage(pl.variant, c.aquifer)))
    else []
  }

  /** What the walk draws for layer `i` when the counters stand at `c`. */
  function LayerDraws(ltype: seq<char>, z: seq<real>, pl: Placement, i: nat, c: Counters): seq<Draw>
    requires i < |ltype| && |z| == |ltype| + 1
  {
    LeakyLayerDraws(ltype, z, pl, i, c) + AquiferLayerDraws(ltype, z, pl, i, c)
  }

  /** Everything the walk draws for the top `n` layers. */
  function Walk(ltype: seq<char>, z: seq<real>, pl: Placement, start: Counters, n: nat): seq<Draw>
    requires n <= |ltype| && |z| == |ltype| + 1
  {
    if n == 0 then []
    else Walk(ltype, z, pl, start, n - 1) + LayerDraws(ltype, z, pl, n - 1, CountersAt(ltype, pl, start, n - 1))
  }

  /**
   * `_xection_plot_layers`: walks the layers top to bottom, shading leaky
   * layers, placing labels and parameter text, and advancing `lli` on leaky
   * layers and `aqi` on aquifers when labels or parameters are drawn. The
   * counters end at their start plus the number of layers of their type, or
   * unchanged when neither labels nor parameters are drawn.
   */
  method PlotLayers(ltype: seq<char>, z: seq<real>, pl: Placement, start: Counters)
    returns (lli: int, aqi: int, log: seq<Draw>)
    requires |z| == |ltype| + 1
    ensures lli == start.leaky + (if pl.labels || pl.params then CountOf(ltype, 'l') else 0)
    ensures aqi == start.aquifer + (if pl.labels || pl.params then CountOf(ltype, 'a') else 0)
    ensures log == Walk(ltype, z, pl, start, |ltype|)
  {
    lli, aqi, log := start.leaky, start.aquifer, [];
    var i := 0;
    while i < |ltype|
      invariant 0 <= i <= |ltype|
      invariant Counters(lli, aqi) == CountersAt(ltype, pl, start, i)
      invariant log == Walk(ltype, z, pl, start, i)
    {
      var draws;
      ghost var c := Counters(lli, aqi);
      lli, aqi, draws := DrawLayer(ltype, z, pl, i, lli, aqi);
      log := log + draws;
      WalkUnfold(ltype, z, pl, start, i);
      CountersStep(ltype, pl, start, i);
      i := i + 1;
    }
    assert ltype[..|ltype|] == ltype;
  }

  /** Passing layer `i` advances the counter of its type when labels or parameters are drawn. */
  lemma CountersStep(ltype: seq<char>, pl: Placement, start: Counters, i: nat)
    requires i < |ltype|
    ensures var c, d := CountersAt(ltype, pl, start, i), CountersAt(ltype, pl, start, i + 1);
            d.leaky == c.leaky + (if ltype[i] == 'l' && (pl.labels || pl.params) then 1 else 0) &&
            d.aquifer == c.aquifer + (if ltype[i] == 'a' && (pl.labels || pl.params) then 1 else 0)
  {
    CountOfStep(ltype, i, 'l');
    CountOfStep(ltype, i, 'a');
  }

  /**
   * One pass of the loop in `_xection_plot_layers`: the draw commands for
   * layer `i` with the counters at `lli`, `aqi`, and the counter of the
   * layer's type advanced when labels or parameters are drawn.
   */
  method DrawLayer(ltype: seq<char>, z: seq<real>, pl: Placement, i: nat, lli: int, aqi: int)
    returns (lli': int, aqi': int, draws: seq<Draw>)
    requires i < |ltype| && |z| == |ltype| + 1
    ensures draws == LayerDraws(ltype, z, pl, i, Counters(lli, aqi))
    ensures lli' == lli + (if ltype[i] == 'l' && (pl.labels || pl.params) then 1 else 0)
    ensures aqi' == aqi + (if ltype[i] == 'a' && (pl.labels || pl.params) then 1 else 0)
  {
    lli', aqi' := lli, aqi;
    var mid := Mean(z[i], z[i + 1]);
    var leakyPart: seq<Draw> := [];
    if ltype[i] == 'l' {
      leakyPart := [Band(z[i + 1], z[i])];
      if pl.labels {
        leakyPart := leakyPart + [Text(LabelX(pl.r0, pl.r, pl.params), mid, LeakyLabel(lli'))];
      }
      if pl.params {
        leakyPart := leakyPart + [Text(ParamX(pl.r0, pl.r, pl.labels), mid, LeakyParams(lli', pl.variant.transient))];
      }
      if pl.labels || pl.params {
        lli' := lli' + 1;
      }
    }
    var aquiferPart: seq<Draw> := [];
    if ltype[i] == 'a' {
      if pl.labels {
        aquiferPart := [Text(LabelX(pl.r0, pl.r, pl.params), mid, AquiferLabel(aqi'))];
      }
      if pl.params {
        aquiferPart := aquiferPart + [Text(ParamX(pl.r0, pl.r, pl.labels), mid,
                                           AquiferParams(aqi', pl.variant.model3D, AquiferStorage(pl.variant, aqi')))];
      }
      if pl.labels || pl.params {
        aqi' := aqi' + 1;
      }
    }
    draws := leakyPart + aquiferPart;
  }

  /** The counter value a caption shows, if it is of the selected kind. */
  function CaptionNumber(caption: Caption, leaky: bool, isLabel: bool): seq<int>
  {
    match caption
    case LeakyLabel(n) => if leaky && isLabel then [n] else []
    case LeakyParams(n, _) => if leaky && !isLabel then [n] else []
    case AquiferLabel(n) => if !leaky && isLabel then [n] else []
    case AquiferParams(n, _, _) => if !leaky && !isLabel then [n] else []
  }

  /** The counter value a draw command shows, if it is a caption of the selected kind. */
  function NumberOf(d: Draw, leaky: bool, isLabel: bool): seq<int>
  {
    if d.Text? then CaptionNumber(d.caption, leaky, isLabel) else []
  }

  /** The numbers shown by the captions of one kind (leaky or aquifer, label or parameters), in drawing order. */
  function Numbers(log: seq<Draw>, leaky: bool, isLabel: bool): seq<int>
  {
    if log == [] then [] else NumberOf(log[0], leaky, isLabel) + Numbers(log[1..], leaky, isLabel)
  }

  /** The layer type whose captions are selected: `'l'` for leaky layers, `'a'` for aquifers. */
  function Kind(leaky: bool): char
  {
    if leaky then 'l' else 'a'
  }

  /** The starting counter of the selected layer type. */
  function Origin(start: Counters, leaky: bool): int
  {
    if leaky then start.leaky else start.aquifer
  }

  /** The consecutive integers `from`, `from + 1`, ..., `from + count - 1`. */
  function Consecutive(from: int, count: nat): seq<int>
  {
    seq(count, k => from + k)
  }

  lemma {:induction false} NumbersAppend(a: seq<Draw>, b: seq<Draw>, leaky: bool, isLabel: bool)
    ensures Numbers(a + b, leaky, isLabel) == Numbers(a, leaky, isLabel) + Numbers(b, leaky, isLabel)
  {
    if a == [] {
      assert a + b == b;
    } else {
      assert (a + b)[0] == a[0];
      assert (a + b)[1..] == a[1..] + b;
      NumbersAppend(a[1..], b, leaky, isLabel);
    }
  }

  /** A label shows its caption's number when labels are drawn. */
  lemma LabelNumbers(pl: Placement, mid: real, caption: Caption, leaky: bool, isLabel: bool)
    ensures Numbers(LabelDraws(pl, mid, caption), leaky, isLabel) ==
            if pl.labels then CaptionNumber(caption, leaky, isLabel) else []
  {
    NumbersShort(LabelDraws(pl, mid, caption), leaky, isLabel);
  }

  /** A parameter text shows its caption's number when parameters are drawn. */
  lemma ParamNumbers(pl: Placement, mid: real, caption: Caption, leaky: bool, isLabel: bool)
    ensures Numbers(ParamDraws(pl, mid, caption), leaky, isLabel) ==
            if pl.params then CaptionNumber(caption, leaky, isLabel) else []
  {
    NumbersShort(ParamDraws(pl, mid, caption), leaky, isLabel);
  }

  /** The numbers a leaky layer's draw commands show: its counter, for the selected leaky caption kind. */
  lemma LeakyLayerNumbers(ltype: seq<char>, z: seq<real>, pl: Placement, i: nat, c: Counters, leaky: bool, isLabel: bool)
    requires i < |ltype| && |z| == |ltype| + 1
    ensures Numbers(LeakyLayerDraws(ltype, z, pl, i, c), leaky, isLabel) ==
            if leaky && ltype[i] == 'l' && (if isLabel then pl.labels else pl.params) then [c.leaky] else []
  {
    if ltype[i] == 'l' {
      var mid := Mean(z[i], z[i + 1]);
      var band: seq<Draw> := [Band(z[i + 1], z[i])];
      var caption := LabelDraws(pl, mid, LeakyLabel(c.leaky));
      var params := ParamDraws(pl, mid, LeakyParams(c.leaky, pl.variant.transient));
      NumbersAppend(band + caption, params, leaky, isLabel);
      NumbersAppend(band, caption, leaky, isLabel);
      NumbersShort(band, leaky, isLabel);
      LabelNumbers(pl, mid, LeakyLabel(c.leaky), leaky, isLabel);
      ParamNumbers(pl, mid, LeakyParams(c.leaky, pl.variant.transient), leaky, isLabel);
    }
  }

  /** The numbers an aquifer's draw commands show: its counter, for the selected aquifer caption kind. */
  lemma AquiferLayerNumbers(ltype: seq<char>, z: seq<real>, pl: Placement, i: nat, c: Counters, leaky: bool, isLabel: bool)
    requires i < |ltype| && |z| == |ltype| + 1
    ensures Numbers(AquiferLayerDraws(ltype, z, pl, i, c), leaky, isLabel) ==
            if !leaky && ltype[i] == 'a' && (if isLabel then pl.labels else pl.params) then [c.aquifer] else []
  {
    if ltype[i] == 'a' {
      var mid := Mean(z[i], z[i + 1]);
      var storage := AquiferStorage(pl.variant, c.aquifer);
      var caption := LabelDraws(pl, mid, AquiferLabel(c.aquifer));
      var params := ParamDraws(pl, mid, AquiferParams(c.aquifer, pl.variant.model3D, storage));
      NumbersAppend(caption, params, leaky, isLabel);
      LabelNumbers(pl, mid, AquiferLabel(c.aquifer), leaky, isLabel);
      ParamNumbers(pl, mid, AquiferParams(c.aquifer, pl.variant.model3D, storage), leaky, isLabel);
    }
  }

  /** The numbers one layer's draw commands show. */
  lemma LayerNumbers(ltype: seq<char>, z: seq<real>, pl: Placement, i: nat, c: Counters, leaky: bool, isLabel: bool)
    requires i < |ltype| && |z| == |ltype| + 1
    ensures Numbers(LayerDraws(ltype, z, pl, i, c), leaky, isLabel) ==
            if leaky && ltype[i] == 'l' && (if isLabel then pl.labels else pl.params) then [c.leaky]
            else if !leaky && ltype[i] == 'a' && (if isLabel then pl.labels else pl.params) then [c.aquifer]
            else []
  {
    NumbersAppend(LeakyLayerDraws(ltype, z, pl, i, c), AquiferLayerDraws(ltype, z, pl, i, c), leaky, isLabel);
    LeakyLayerNumbers(ltype, z, pl, i, c, leaky, isLabel);
    AquiferLayerNumbers(ltype, z, pl, i, c, leaky, isLabel);
  }

  lemma NumbersShort(s: seq<Draw>, leaky: bool, isLabel: bool)
    requires |s| <= 1
    ensures Numbers(s, leaky, isLabel) == if s == [] then [] else NumberOf(s[0], leaky, isLabel)
  {
    if s != [] {
      assert s[1..] == [];
    }
  }

  /**
   * The numbering the walk shows: with labels on, the leaky-layer labels read
   * `lli0, lli0 + 1, ...` and the aquifer labels `aqi0, aqi0 + 1, ...`, one
   * per layer of that type in top-to-bottom order; with parameters on, the
   * parameter texts are indexed the same way. So no number is skipped or
   * shown twice for one kind, and each kind's numbers strictly increase.
   */
  lemma {:induction false} WalkNumbering(ltype: seq<char>, z: seq<real>, pl: Placement, start: Counters, n: nat,
                                         leaky: bool, isLabel: bool)
    requires n <= |ltype| && |z| == |ltype| + 1
    requires if isLabel then pl.labels else pl.params
    ensures Numbers(Walk(ltype, z, pl, start, n), leaky, isLabel) ==
            Consecutive(Origin(start, leaky), CountOf(ltype[..n], Kind(leaky)))
  {
    if n > 0 {
      var i := n - 1;
      WalkNumbering(ltype, z, pl, start, i, leaky, isLabel);
      WalkNumberingStep(ltype, z, pl, start, i, leaky, isLabel);
      assert i + 1 == n;
    }
  }

  /** Walking past layer `i` keeps each kind's numbers consecutive from its start counter. */
  lemma WalkNumberingStep(ltype: seq<char>, z: seq<real>, pl: Placement, start: Counters, i: nat, leaky: bool, isLabel: bool)
    requires i < |ltype| && |z| == |ltype| + 1
    requires if isLabel then pl.labels else pl.params
    requires Numbers(Walk(ltype, z, pl, start, i), leaky, isLabel) == Consecutive(Origin(start, leaky), CountOf(ltype[..i], Kind(leaky)))
    ensures Numbers(Walk(ltype, z, pl, start, i + 1), leaky, isLabel) ==
            Consecutive(Origin(start, leaky), CountOf(ltype[..i + 1], Kind(leaky)))
  {
    WalkNumbersUnfold(ltype, z, pl, start, i, leaky, isLabel);
    ShownAt(ltype, z, pl, start, i, leaky, isLabel);
    ConsecutiveThrough(ltype, start, i, leaky);
  }

  /** The numbers down to layer `i`, then the one layer `i` shows, are the numbers down to the layer below it. */
  lemma ConsecutiveThrough(ltype: seq<char>, start: Counters, i: nat, leaky: bool)
    requires i < |ltype|
    ensures Consecutive(Origin(start, leaky), CountOf(ltype[..i], Kind(leaky))) + ShownFor(ltype, start, i, leaky) ==
            Consecutive(Origin(start, leaky), CountOf(ltype[..i + 1], Kind(leaky)))
  {
    var from, before := Origin(start, leaky), CountOf(ltype[..i], Kind(leaky));
    CountOfStep(ltype, i, Kind(leaky));
    if ltype[i] == Kind(leaky) {
      ConsecutiveExtend(from, before);
    } else {
      assert Consecutive(from, before) + [] == Consecutive(from, before);
    }
  }

  /** Counting over one more layer adds one exactly when that layer has the type counted. */
  lemma CountOfStep(ltype: seq<char>, i: nat, t: char)
    requires i < |ltype|
    ensures CountOf(ltype[..i + 1], t) == CountOf(ltype[..i], t) + (if ltype[i] == t then 1 else 0)
  {
    assert ltype[..i + 1][..i] == ltype[..i];
  }

  lemma ConsecutiveExtend(from: int, count: nat)
    ensures Consecutive(from, count) + [from + count] == Consecutive(from, count + 1)
  {
  }

  /** The number layer `i` should show: the selected counter as the walk reaches it, if the layer is of the selected type. */
  function ShownFor(ltype: seq<char>, start: Counters, i: nat, leaky: bool): seq<int>
    requires i < |ltype|
  {
    if ltype[i] == Kind(leaky) then [Origin(start, leaky) + CountOf(ltype[..i], Kind(leaky))] else []
  }

  /** The numbers layer `i`'s draw commands show are the ones it should show. */
  lemma ShownAt(ltype: seq<char>, z: seq<real>, pl: Placement, start: Counters, i: nat, leaky: bool, isLabel: bool)
    requires i < |ltype| && |z| == |ltype| + 1
    requires if isLabel then pl.labels else pl.params
    ensures Numbers(LayerDraws(ltype, z, pl, i, CountersAt(ltype, pl, start, i)), leaky, isLabel) ==
            ShownFor(ltype, start, i, leaky)
  {
    LayerNumbers(ltype, z, pl, i, CountersAt(ltype, pl, start, i), leaky, isLabel);
    ShownForCounters(ltype, pl, start, i, leaky);
  }

  /** The number layer `i` should show is the counter of its type as the walk reaches it. */
  lemma ShownForCounters(ltype: seq<char>, pl: Placement, start: Counters, i: nat, leaky: bool)
    requires i < |ltype| && (pl.labels || pl.params)
    ensures ShownFor(ltype, start, i, leaky) ==
            if leaky && ltype[i] == 'l' then [CountersAt(ltype, pl, start, i).leaky]
            else if !leaky && ltype[i] == 'a' then [CountersAt(ltype, pl, start, i).aquifer]
            else []
  {
  }

  /** The numbers the walk past layer `i` shows: those down to it, then those of layer `i`. */
  lemma WalkNumbersUnfold(ltype: seq<char>, z: seq<real>, pl: Placement, start: Counters, i: nat, leaky: bool, isLabel: bool)
    requires i < |ltype| && |z| == |ltype| + 1
    ensures Numbers(Walk(ltype, z, pl, start, i + 1), leaky, isLabel) ==
            Numbers(Walk(ltype, z, pl, start, i), leaky, isLabel) +
            Numbers(LayerDraws(ltype, z, pl, i, CountersAt(ltype, pl, start, i)), leaky, isLabel)
  {
    WalkUnfold(ltype, z, pl, start, i);
    NumbersAppend(Walk(ltype, z, pl, start, i), LayerDraws(ltype, z, pl, i, CountersAt(ltype, pl, start, i)),
                  leaky, isLabel);
  }

  /**
   * Every text in `log` lies on the line, between `r0` and `r0 + r`, at the
   * middle height of one of the top `n` layers.
   */
  predicate TextsOnLine(log: seq<Draw>, r0: real, r: real, z: seq<real>, n: nat)
    requires n < |z|
  {
    forall d :: d in log && d.Text? ==>
      r0 <= d.x <= r0 + r && exists i :: 0 <= i < n && d.y == Mean(z[i], z[i + 1])
  }

  /** Every text in `log` lies on the line, between `r0` and `r0 + r`, at height `y`. */
  predicate TextsAt(log: seq<Draw>, r0: real, r: real, y: real)
  {
    forall d :: d in log && d.Text? ==> r0 <= d.x <= r0 + r && d.y == y
  }

  /**
   * With a non-negative line length every text the walk places lies on the
   * line, between `r0` and `r0 + r`, and at the middle height of one of the
   * layers walked.
   */
  lemma {:induction false} WalkTextsOnLine(ltype: seq<char>, z: seq<real>, pl: Placement, start: Counters, n: nat)
    requires n <= |ltype| && |z| == |ltype| + 1 && 0.0 <= pl.r
    ensures TextsOnLine(Walk(ltype, z, pl, start, n), pl.r0, pl.r, z, n)
  {
    if n > 0 {
      WalkTextsOnLine(ltype, z, pl, start, n - 1);
      WalkTextsStep(ltype, z, pl, start, n);
    }
  }

  /** One step of the walk keeps every text on the line. */
  lemma WalkTextsStep(ltype: seq<char>, z: seq<real>, pl: Placement, start: Counters, n: nat)
    requires 0 < n <= |ltype| && |z| == |ltype| + 1 && 0.0 <= pl.r
    requires TextsOnLine(Walk(ltype, z, pl, start, n - 1), pl.r0, pl.r, z, n - 1)
    ensures TextsOnLine(Walk(ltype, z, pl, start, n), pl.r0, pl.r, z, n)
  {
    var i := n - 1;
    var c := CountersAt(ltype, pl, start, i);
    WalkUnfold(ltype, z, pl, start, i);
    LayerTextsOnLine(ltype, z, pl, i, c);
    TextsOnLineAppend(Walk(ltype, z, pl, start, i + 1), Walk(ltype, z, pl, start, i), LayerDraws(ltype, z, pl, i, c),
                      pl.r0, pl.r, z, i);
    assert i + 1 == n;
  }

  /** The walk past layer `i` is the walk down to it followed by layer `i`'s draw commands. */
  lemma WalkUnfold(ltype: seq<char>, z: seq<real>, pl: Placement, start: Counters, i: nat)
    requires i < |ltype| && |z| == |ltype| + 1
    ensures Walk(ltype, z, pl, start, i + 1) ==
            Walk(ltype, z, pl, start, i) + LayerDraws(ltype, z, pl, i, CountersAt(ltype, pl, start, i))
  {
  }

  /** Texts on the line over the top `i` layers, followed by texts at layer `i`'s middle height. */
  lemma TextsOnLineAppend(log: seq<Draw>, prefix: seq<Draw>, layer: seq<Draw>, r0: real, r: real, z: seq<real>, i: nat)
    requires i + 1 < |z| && log == prefix + layer
    requires TextsOnLine(prefix, r0, r, z, i)
    requires TextsAt(layer, r0, r, Mean(z[i], z[i + 1]))
    ensures TextsOnLine(log, r0, r, z, i + 1)
  {
    forall d: Draw | d in log && d.Text?
      ensures r0 <= d.x <= r0 + r && exists k :: 0 <= k < i + 1 && d.y == Mean(z[k], z[k + 1])
    {
      if d in layer {
        assert d.y == Mean(z[i], z[i + 1]);
      }
    }
  }

  /** Every text one layer's draw commands place lies on the line, at the middle height of the layer. */
  lemma LayerTextsOnLine(ltype: seq<char>, z: seq<real>, pl: Placement, i: nat, c: Counters)
    requires i < |ltype| && |z| == |ltype| + 1 && 0.0 <= pl.r
    ensures TextsAt(LayerDraws(ltype, z, pl, i, c), pl.r0, pl.r, Mean(z[i], z[i + 1]))
  {
  }

  /**
   * Over a stack whose layers alternate between aquifer and leaky layer, the
   * starting rule makes every leaky layer's number equal the number of
   * aquifers above it: the leaky layer below aquifer k is numbered k + 1 when
   * the stack starts with an aquifer, and the leaky layer above aquifer k is
   * numbered k when it starts with a leaky layer.
   */
  lemma {:induction false} AlternatingLeakyNumbers(ltype: seq<char>, i: nat)
    requires 0 < |ltype| && i < |ltype| && ltype[i] == 'l'
    requires forall j :: 0 <= j < |ltype| ==> ltype[j] == 'a' || ltype[j] == 'l'
    requires forall j :: 0 < j < |ltype| ==> ltype[j] != ltype[j - 1]
    ensures StartIndices(ltype).value.leaky + CountOf(ltype[..i], 'l') == CountOf(ltype[..i], 'a')
  {
    AlternatingBalance(ltype, i);
    if ltype[0] == 'a' {
      if i % 2 == 0 {
        // even distance from an aquifer at the top: layer i would be an aquifer
        AlternatingParity(ltype, i);
      }
    } else {
      if i % 2 == 1 {
        AlternatingParity(ltype, i);
      }
    }
  }

  /** In an alternating stack layer `i` has the top layer's type exactly when `i` is even. */
  lemma {:induction false} AlternatingParity(ltype: seq<char>, i: nat)
    requires i < |ltype|
    requires forall j :: 0 <= j < |ltype| ==> ltype[j] == 'a' || ltype[j] == 'l'
    requires forall j :: 0 < j < |ltype| ==> ltype[j] != ltype[j - 1]
    ensures (ltype[i] == ltype[0]) <==> i % 2 == 0
  {
    if i > 0 {
      AlternatingParity(ltype, i - 1);
    }
  }

  /**
   * In an alternating stack the layers above `i` hold as many aquifers as
   * leaky layers, plus one of the top layer's type when `i` is odd.
   */
  lemma {:induction false} AlternatingBalance(ltype: seq<char>, i: nat)
    requires i <= |ltype|
    requires forall j :: 0 <= j < |ltype| ==> ltype[j] == 'a' || ltype[j] == 'l'
    requires forall j :: 0 < j < |ltype| ==> ltype[j] != ltype[j - 1]
    ensures i % 2 == 0 ==> CountOf(ltype[..i], 'a') == CountOf(ltype[..i], 'l')
    ensures i % 2 == 1 && ltype[0] == 'a' ==> CountOf(ltype[..i], 'a') == CountOf(ltype[..i], 'l') + 1
    ensures i % 2 == 1 && ltype[0] == 'l' ==> CountOf(ltype[..i], 'l') == CountOf(ltype[..i], 'a') + 1
  {
    if i > 0 {
      AlternatingBalance(ltype, i - 1);
      AlternatingParity(ltype, i - 1);
      assert ltype[..i][..i - 1] == ltype[..i - 1];
    }
  }

  /** A separator goes at boundary `i` exactly when the layers on both sides of it are aquifers. */
  predicate IsSeparatorAt(ltype: seq<char>, i: int)
  {
    1 <= i < |ltype| && ltype[i] == 'a' && ltype[i - 1] == 'a'
  }

  /** The boundaries among the top `n` layers that get a separator, top to bottom. */
  function SeparatorIndices(ltype: seq<char>, n: nat): seq<nat>
    requires n <= |ltype|
  {
    if n == 0 then []
    else SeparatorIndices(ltype, n - 1) + (if IsSeparatorAt(ltype, n - 1) then [n - 1] else [])
  }

  /** The separator draw commands for the top `n` layers. */
  function SeparatorDraws(ltype: seq<char>, z: seq<real>, n: nat): seq<Draw>
    requires n <= |ltype| && |z| == |ltype| + 1
  {
    if n == 0 then []
    else SeparatorDraws(ltype, z, n - 1) + (if IsSeparatorAt(ltype, n - 1) then [Separator(z[n - 1])] else [])
  }

  /** `SeparatorIndices` lists, in increasing order, exactly the separator boundaries above `n`. */
  lemma {:induction false} SeparatorIndicesExact(ltype: seq<char>, n: nat)
    requires n <= |ltype|
    ensures forall i :: i in SeparatorIndices(ltype, n) <==> IsSeparatorAt(ltype, i) && i < n
    ensures forall k, m :: 0 <= k < m < |SeparatorIndices(ltype, n)| ==>
              SeparatorIndices(ltype, n)[k] < SeparatorIndices(ltype, n)[m]
  {
    if n > 0 {
      SeparatorIndicesExact(ltype, n - 1);
      var prev := SeparatorIndices(ltype, n - 1);
      forall k | 0 <= k < |prev|
        ensures prev[k] < n - 1
      {
        assert prev[k] in prev;
      }
      var s := SeparatorIndices(ltype, n);
      forall k, m | 0 <= k < m < |s|
        ensures s[k] < s[m]
      {
        if m < |prev| {
          assert s[k] == prev[k] && s[m] == prev[m];
        } else {
          assert s[k] == prev[k] && s[m] == n - 1;
        }
      }
    }
  }

  /**
   * `_xsection_aquifer_boundaries`: marks, top to bottom, every boundary
   * between two adjacent aquifers and no boundary next to a leaky layer.
   */
  method AquiferBoundaries(ltype: seq<char>, z: seq<real>) returns (seps: seq<nat>, log: seq<Draw>)
    requires |z| == |ltype| + 1
    ensures forall i :: i in seps <==> IsSeparatorAt(ltype, i)
    ensures forall k, m :: 0 <= k < m < |seps| ==> seps[k] < seps[m]
    ensures seps == SeparatorIndices(ltype, |ltype|)
    ensures log == SeparatorDraws(ltype, z, |ltype|)
  {
    seps, log := [], [];
    var i := 1;
    while i < |ltype|
      invariant |ltype| > 0 ==> 1 <= i <= |ltype|
      invariant seps == SeparatorIndices(ltype, if |ltype| == 0 then 0 else i)
      invariant log == SeparatorDraws(ltype, z, if |ltype| == 0 then 0 else i)
    {
      if ltype[i] == 'a' && ltype[i - 1] == 'a' {
        seps := seps + [i];
        log := log + [Separator(z[i])];
      }
      i := i + 1;
    }
    SeparatorIndicesExact(ltype, |ltype|);
  }

  /** The axis setup of the line parameters: one command, the limits when there are any, else the x-ticks removed. */
  function LineSetup(p: LineParams): (d: seq<Draw>)
    ensures |d| == 1
    ensures d[0].XLimits? <==> p.xlim.Some?
    ensures d[0].XLimits? ==> d[0].lo == p.xlim.value.lo && d[0].hi == p.xlim.value.hi
    ensures !d[0].XLimits? ==> d[0] == HideXTicks
  {
    match p.xlim
    case Some(lim) => [XLimits(lim.lo, lim.hi)]
    case None => [HideXTicks]
  }

  /**
   * The axis setup follows the endpoints: without them the x-ticks are
   * removed; with them the limits start at the offset `r0` and end no further
   * than one line length to its right, exactly there in mode "s".
   */
  lemma LineSetupFollowsEndpoints(xy: Option<Segment>, axis: string, len: real)
    requires xy.Some? ==> IsLength(xy.value, len)
    requires XsectionLineParams(xy, axis, len).Ok?
    ensures var p := XsectionLineParams(xy, axis, len).value;
            (LineSetup(p) == [HideXTicks] <==> xy.None?) &&
            (xy.Some? ==> LineSetup(p)[0].XLimits? && LineSetup(p)[0].lo == p.r0 &&
                          p.r0 <= LineSetup(p)[0].hi <= p.r0 + p.r &&
                          (axis == "s" ==> LineSetup(p)[0].hi == p.r0 + p.r))
  {
    if xy.Some? {
      LineSpan(xy.value, axis, len);
    }
  }

  /**
   * `xsection` for a multi-layer model: an axis mode outside "s", "x", "y"
   * with endpoints given fails before anything is drawn; an empty layer
   * stack, whose top layer the starting counters read, fails with an
   * IndexError after the axis setup, which the failure does not report;
   * otherwise the
   * axis setup, the layer walk from the starting counters, the
   * aquifer-aquifer separators, a thin top rule and a thick base rule, and,
   * without endpoints, the x-ticks removed once more.
   */
  method Xsection(variant: Variant, ltype: seq<char>, z: seq<real>, xy: Option<Segment>, axis: string, len: real,
                  labels: bool, params: bool)
    returns (res: Result<seq<Draw>>)
    requires |z| == |ltype| + 1
    requires xy.Some? ==> IsLength(xy.value, len)
    ensures res.Failure? <==> (xy.Some? && !IsAxisMode(axis)) || |ltype| == 0
    ensures res.Failure? ==> res.error == (if xy.Some? && !IsAxisMode(axis) then XsectionLineParams(xy, axis, len).error else IndexError)
    ensures res.Ok? ==>
              var p := XsectionLineParams(xy, axis, len).value;
              var pl := Placement(p.r0, p.r, labels, params, variant);
              res.value == LineSetup(p) + Walk(ltype, z, pl, StartIndices(ltype).value, |ltype|)
                           + SeparatorDraws(ltype, z, |ltype|)
                           + [Rule(z[0], false), Rule(z[|ltype|], true)]
                           + (if xy.None? then [HideXTicks] else [])
  {
    var line := XsectionLineParams(xy, axis, len);
    if line.Failure? {
      return Failure(line.error);
    }
    var p := line.value;
    var start := StartIndices(ltype);
    if start.Failure? {
      return Failure(start.error);
    }
    var _, _, layers := PlotLayers(ltype, z, Placement(p.r0, p.r, labels, params, variant), start.value);
    var _, separators := AquiferBoundaries(ltype, z);
    var log := LineSetup(p) + layers + separators + [Rule(z[0], false), Rule(z[|ltype|], true)];
    if xy.None? {
      log := log + [HideXTicks];
    }
    return Ok(log);
  }
}
