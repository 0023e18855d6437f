/**
 * The horizontal extent of a cross-section through a single-column (1D)
 * model, from `PlotBase._xsection_simple_aquifer` (timflow/plots/plots.py):
 * the smallest and largest of the elements' optional left/right extents
 * (`xls`, `xld`), folded from infinite starting values, and the plotted range
 * padded by a quarter of the span on either side, set as the axis limits.
 */
module SimpleAquifer {
  import opened Wrappers
  import opened Geometry

  /** An extended real: the floating-point infinities the fold starts from. */
  datatype Ext = NegInf | Fin(v: real) | PosInf

  predicate Le(a: Ext, b: Ext)
  {
    a == NegInf || b == PosInf || (a.Fin? && b.Fin? && a.v <= b.v)
  }

  function MinE(a: Ext, b: Ext): (m: Ext)
    ensures Le(m, a) && Le(m, b) && (m == a || m == b)
  {
    if Le(a, b) then a else b
  }

  function MaxE(a: Ext, b: Ext): (m: Ext)
    ensures Le(a, m) && Le(b, m) && (m == a || m == b)
  {
    if Le(a, b) then b else a
  }

  /** An element's optional `xls` and `xld` attributes. */
  datatype ElementExtent = ElementExtent(xls: Option<real>, xld: Option<real>)

  /** `getattr(e, name, default)`. */
  function AttrOr(a: Option<real>, default: Ext): Ext
  {
    if a.Some? then Fin(a.value) else default
  }

  /** The attribute values one element has: `xls`, then `xld`. */
  function AttrsOf(e: ElementExtent): seq<real>
  {
    (if e.xls.Some? then [e.xls.value] else []) + (if e.xld.Some? then [e.xld.value] else [])
  }

  /** The attribute values the elements actually have, in element order. */
  function Present(es: seq<ElementExtent>): seq<real>
  {
    if es == [] then [] else Present(es[..|es| - 1]) + AttrsOf(es[|es| - 1])
  }

  /** `m` is what folding `min` over `vals` from `+inf` gives: their least value, or `+inf` if there is none. */
  predicate IsLeast(m: Ext, vals: seq<real>)
  {
    (m == PosInf <==> vals == []) && m != NegInf &&
    (m.Fin? ==> m.v in vals && forall a :: a in vals ==> m.v <= a)
  }

  /** `m` is what folding `max` over `vals` from `-inf` gives: their greatest value, or `-inf` if there is none. */
  predicate IsGreatest(m: Ext, vals: seq<real>)
  {
    (m == NegInf <==> vals == []) && m != PosInf &&
    (m.Fin? ==> m.v in vals && forall a :: a in vals ==> a <= m.v)
  }

  /** One step of the `x_min` fold: `min([getattr(e, "xls", inf), getattr(e, "xld", inf), x_min])`. */
  lemma LeastStep(m: Ext, vals: seq<real>, e: ElementExtent)
    requires IsLeast(m, vals)
    ensures IsLeast(MinE(MinE(AttrOr(e.xls, PosInf), AttrOr(e.xld, PosInf)), m), vals + AttrsOf(e))
  {
    var all := vals + AttrsOf(e);
    forall a | a in all
      ensures a in vals || Some(a) == e.xls || Some(a) == e.xld
    {
    }
  }

  /** One step of the `x_max` fold: `max([getattr(e, "xls", -inf), getattr(e, "xld", -inf), x_max])`. */
  lemma GreatestStep(m: Ext, vals: seq<real>, e: ElementExtent)
    requires IsGreatest(m, vals)
    ensures IsGreatest(MaxE(MaxE(AttrOr(e.xls, NegInf), AttrOr(e.xld, NegInf)), m), vals + AttrsOf(e))
  {
    var all := vals + AttrsOf(e);
    forall a | a in all
      ensures a in vals || Some(a) == e.xls || Some(a) == e.xld
    {
    }
  }

  /** `ax.set_xlim(x1, x2)`: matplotlib refuses a limit that is not finite. */
  function SetXLim(x1: Ext, x2: Ext): (res: Result<(real, real)>)
    ensures res.Ok? <==> x1.Fin? && x2.Fin?
    ensures res.Ok? ==> Fin(res.value.0) == x1 && Fin(res.value.1) == x2
    ensures res.Failure? ==> res.error.ValueError?
  {
    if x1.Fin? && x2.Fin? then Ok((x1.v, x2.v)) else Failure(ValueError("Axis limits cannot be NaN or Inf"))
  }

  /**
   * The fold over the elements: `x_min` is the least present attribute and
   * `x_max` the greatest, both infinite (`+inf` and `-inf`) exactly when no
   * element has either attribute. The plotted range `[x1, x2]` is the
   * endpoints' x-coordinates when `xy` is given; otherwise the span padded by
   * 25 % on each side, which contains every present attribute, or, with no
   * attribute present, the IEEE result `(+inf, -inf)` of padding the two
   * starting values. Setting those as the axis limits then fails, so the
   * range is plotted exactly when endpoints are given or some attribute is
   * present.
   */
  method SimpleAquiferExtent(es: seq<ElementExtent>, xy: Option<Segment>)
    returns (xMin: Ext, xMax: Ext, x1: Ext, x2: Ext, xlim: Result<(real, real)>)
    ensures IsLeast(xMin, Present(es)) && IsGreatest(xMax, Present(es))
    ensures xy.Some? ==> x1 == Fin(xy.value.start.x) && x2 == Fin(xy.value.end.x)
    ensures xy.None? && Present(es) == [] ==> x1 == PosInf && x2 == NegInf
    ensures xy.None? && Present(es) != [] ==>
              x1 == Fin(xMin.v - 0.25 * (xMax.v - xMin.v)) && x2 == Fin(xMax.v + 0.25 * (xMax.v - xMin.v)) &&
              x1.v <= xMin.v <= xMax.v <= x2.v
    ensures xlim.Failure? <==> xy.None? && Present(es) == []
    ensures xlim.Failure? ==> xlim.error.ValueError?
    ensures xlim.Ok? ==> Fin(xlim.value.0) == x1 && Fin(xlim.value.1) == x2
  {
    xMin, xMax := PosInf, NegInf;
    var i := 0;
    while i < |es|
      invariant 0 <= i <= |es|
      invariant IsLeast(xMin, Present(es[..i])) && IsGreatest(xMax, Present(es[..i]))
    {
      var e := es[i];
      assert es[..i + 1][..i] == es[..i];
      LeastStep(xMin, Present(es[..i]), e);
      GreatestStep(xMax, Present(es[..i]), e);
      xMin := MinE(MinE(AttrOr(e.xls, PosInf), AttrOr(e.xld, PosInf)), xMin);
      xMax := MaxE(MaxE(AttrOr(e.xls, NegInf), AttrOr(e.xld, NegInf)), xMax);
      i := i + 1;
    }
    assert es[..|es|] == es;
    match xy {
    case Some(s) =>
      x1, x2 := Fin(s.start.x), Fin(s.end.x);
    case None =>
      if xMin.Fin? && xMax.Fin? {
        var dx := xMax.v - xMin.v;
        x1, x2 := Fin(xMin.v - 0.25 * dx), Fin(xMax.v + 0.25 * dx);
      } else {
        // dx = -inf - (+inf) = -inf, so x1 = +inf + inf and x2 = -inf - inf
        x1, x2 := PosInf, NegInf;
      }
    }
    xlim := SetXLim(x1, x2);
  }
}
