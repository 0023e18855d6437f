/**
 * The vertical coordinates and head rows of the vertical-section contour plot
 * `PlotSteady.vcontour` (timflow/steady/plots.py), its choice of horizontal
 * coordinate, and the interleaving of aquifer tops and bottoms that it shares
 * with the flux-contour plot `vcontoursf1D`.
 */
module VerticalGrid {
  import opened Wrappers
  import opened Geometry

  /** Aquifer `i` has top `top[i]` above bottom `bot[i]`, which is at or above the next aquifer's top. */
  predicate Stacked(top: seq<real>, bot: seq<real>)
  {
    |top| == |bot| &&
    (forall i :: 0 <= i < |top| ==> bot[i] <= top[i]) &&
    (forall i :: 0 < i < |top| ==> top[i] <= bot[i - 1])
  }

  /** Elevations that never rise from one entry to the next. */
  predicate NonIncreasing(s: seq<real>)
  {
    forall k :: 0 < k < |s| ==> s[k] <= s[k - 1]
  }

  /**
   * The loop filling `zflow` in `vcontoursf1D` and `zg` in `vcontour` when
   * heads are constant in each layer: entry `2i` is aquifer `i`'s top and
   * entry `2i + 1` its bottom, so over a stacked aquifer set the elevations
   * run from the top of the model down to its base.
   */
  method Interleave(top: seq<real>, bot: seq<real>) returns (zs: array<real>)
    requires |bot| == |top|
    ensures fresh(zs)
    ensures zs.Length == 2 * |top|
    ensures forall i :: 0 <= i < |top| ==> zs[2 * i] == top[i] && zs[2 * i + 1] == bot[i]
    ensures Stacked(top, bot) ==> NonIncreasing(zs[..])
  {
    zs := new real[2 * |top|];
    for i := 0 to |top|
      invariant forall j :: 0 <= j < i ==> zs[2 * j] == top[j] && zs[2 * j + 1] == bot[j]
    {
      zs[2 * i] := top[i];
      zs[2 * i + 1] := bot[i];
    }
    if Stacked(top, bot) {
      InterleavedNonIncreasing(top, bot, zs[..]);
    }
  }

  /** Tops and bottoms of a stacked aquifer set, interleaved, never rise. */
  lemma InterleavedNonIncreasing(top: seq<real>, bot: seq<real>, zs: seq<real>)
    requires Stacked(top, bot) && |zs| == 2 * |top|
    requires forall i :: 0 <= i < |top| ==> zs[2 * i] == top[i] && zs[2 * i + 1] == bot[i]
    ensures NonIncreasing(zs)
  {
    forall k | 0 < k < |zs|
      ensures zs[k] <= zs[k - 1]
    {
      var i := k / 2;
      if k % 2 == 1 {
        assert k == 2 * i + 1;
        assert zs[2 * i] == top[i] && zs[2 * i + 1] == bot[i];
      } else {
        assert k == 2 * (i - 1) + 2;
        assert zs[2 * (i - 1) + 1] == bot[i - 1] && zs[2 * i] == top[i];
      }
    }
  }

  /** Every row of `h` twice, in order: `np.repeat(h, 2, 0)`. */
  function RepeatRows(h: seq<seq<real>>): (r: seq<seq<real>>)
    ensures |r| == 2 * |h|
    ensures forall i :: 0 <= i < |h| ==> r[2 * i] == h[i] && r[2 * i + 1] == h[i]
  {
    var r := seq(2 * |h|, k requires 0 <= k < 2 * |h| => h[k / 2]);
    assert forall i :: 0 <= i < |h| ==> (2 * i) / 2 == i && (2 * i + 1) / 2 == i;
    r
  }

  /**
   * The elevations `vcontour` uses with `vinterp`: the top of the first
   * aquifer, the layer centres `0.5 * (zaqbot + zaqtop)`, the bottom of the
   * last aquifer. Over a stacked aquifer set they never rise.
   */
  function CentredElevations(top: seq<real>, bot: seq<real>): (zg: seq<real>)
    requires 0 < |top| && |bot| == |top|
    ensures |zg| == |top| + 2 && zg[0] == top[0] && zg[|top| + 1] == bot[|top| - 1]
    ensures forall i :: 0 <= i < |top| ==> zg[i + 1] == Mean(top[i], bot[i])
  {
    [top[0]] + seq(|top|, i requires 0 <= i < |top| => 0.5 * (bot[i] + top[i])) + [bot[|bot| - 1]]
  }

  /** The head rows `vcontour` uses with `vinterp`: the first row, every row, the last row. */
  function PaddedRows(h: seq<seq<real>>): (hg: seq<seq<real>>)
    requires 0 < |h|
    ensures |hg| == |h| + 2 && hg[0] == h[0] && hg[|h| + 1] == h[|h| - 1]
    ensures forall i :: 0 <= i < |h| ==> hg[i + 1] == h[i]
  {
    [h[0]] + h + [h[|h| - 1]]
  }

  /** Over a stacked aquifer set the model top, the layer centres and the model base never rise. */
  lemma CentredNonIncreasing(top: seq<real>, bot: seq<real>)
    requires 0 < |top| && Stacked(top, bot)
    ensures NonIncreasing(CentredElevations(top, bot))
  {
    var zg := CentredElevations(top, bot);
    forall k | 0 < k < |zg|
      ensures zg[k] <= zg[k - 1]
    {
      if 1 < k < |zg| - 1 {
        assert zg[k] == Mean(top[k - 1], bot[k - 1]) && zg[k - 1] == Mean(top[k - 2], bot[k - 2]);
      }
    }
  }

  /**
   * The grid `vcontour` contours. With `vinterp`, the heads are taken at the
   * layer centres and held to the model top and base. Without it each layer's
   * head is constant between its top and bottom: `zg` interleaves tops and
   * bottoms and each head row appears twice. Either way there is one head row
   * per elevation, and over a stacked aquifer set the elevations never rise.
   */
  method VerticalGrid(top: seq<real>, bot: seq<real>, h: seq<seq<real>>, vinterp: bool)
    returns (zg: seq<real>, hg: seq<seq<real>>)
    requires 0 < |top| && |bot| == |top| && |h| == |top|
    ensures |zg| == |hg|
    ensures vinterp ==> zg == CentredElevations(top, bot) && hg == PaddedRows(h)
    ensures !vinterp ==> |zg| == 2 * |top| &&
                         forall i :: 0 <= i < |top| ==> zg[2 * i] == top[i] && zg[2 * i + 1] == bot[i]
    ensures !vinterp ==> hg == RepeatRows(h)
    ensures Stacked(top, bot) ==> NonIncreasing(zg)
  {
    if vinterp {
      zg := CentredElevations(top, bot);
      hg := PaddedRows(h);
      if Stacked(top, bot) {
        CentredNonIncreasing(top, bot);
      }
    } else {
      var zs := Interleave(top, bot);
      zg := zs[..];
      hg := RepeatRows(h);
    }
  }

  /**
   * The horizontal coordinate of `vcontour`'s contour grid: the x-coordinates
   * of the sample points for mode "x", their y-coordinates for mode "y", the
   * distance along the line for mode "s"; any other mode is refused.
   */
  function VContourAxis(axis: string, xg: seq<real>, yg: seq<real>, sg: seq<real>): (res: Result<seq<real>>)
    ensures res.Failure? <==> !IsAxisMode(axis)
    ensures res.Failure? ==> res.error.ValueError?
    ensures axis == "x" ==> res == Ok(xg)
    ensures axis == "y" ==> res == Ok(yg)
    ensures axis == "s" ==> res == Ok(sg)
  {
    if axis == "x" then Ok(xg)
    else if axis == "y" then Ok(yg)
    else if axis == "s" then Ok(sg)
    else Failure(ValueError("horizontal_axis must be 'x', 'y', or 's'"))
  }
}
