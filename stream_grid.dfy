/**
 * The stream-function grid of the flux-contour plot `PlotSteady.vcontoursf1D`
 * (timflow/steady/plots.py) for a model that varies along x only. Each column
 * holds the horizontal discharges `Qx` of the `naq` aquifers at one sample
 * point (what `disvec` returns there); the stream function in that column is
 * zero at the base of the model and drops by each aquifer's discharge across
 * that aquifer, constant across the leaky layer between two aquifers.
 */
module StreamGrid {
  import opened Wrappers
  import opened VerticalGrid

  /** `q[from] + q[from + 1] + ... + q[|q| - 1]`: the discharge of aquifer `from` and all aquifers below it. */
  function SumFrom(q: seq<real>, from: nat): real
    requires from <= |q|
    decreases |q| - from
  {
    if from == |q| then 0.0 else q[from] + SumFrom(q, from + 1)
  }

  /**
   * Reference definition of one column of the grid, top row first: rows `2i`
   * and `2i + 1` are the top and bottom of aquifer `i`, where the stream
   * function is minus the discharge of everything from that level down.
   */
  function StreamColumn(q: seq<real>): (col: seq<real>)
    ensures |col| == 2 * |q|
  {
    seq(2 * |q|, k requires 0 <= k < 2 * |q| => -SumFrom(q, (k + 1) / 2))
  }

  /**
   * What the column means: minus the total discharge at the model top, zero at
   * its base, a rise of exactly aquifer `i`'s discharge from its top to its
   * bottom, and no change across the leaky layer between aquifers `i` and `i + 1`.
   */
  lemma StreamColumnMeaning(q: seq<real>)
    requires 0 < |q|
    ensures StreamColumn(q)[0] == -SumFrom(q, 0)
    ensures StreamColumn(q)[2 * |q| - 1] == 0.0
    ensures forall i :: 0 <= i < |q| ==> StreamColumn(q)[2 * i + 1] - StreamColumn(q)[2 * i] == q[i]
    ensures forall i :: 0 <= i < |q| - 1 ==> StreamColumn(q)[2 * i + 1] == StreamColumn(q)[2 * i + 2]
  {
    assert StreamColumn(q)[2 * |q| - 1] == -SumFrom(q, |q|);
    forall i | 0 <= i < |q|
      ensures StreamColumn(q)[2 * i + 1] - StreamColumn(q)[2 * i] == q[i]
    {
      AcrossAquifer(q, i);
    }
    forall i | 0 <= i < |q| - 1
      ensures StreamColumn(q)[2 * i + 1] == StreamColumn(q)[2 * i + 2]
    {
      AcrossLeakyLayer(q, i);
    }
  }

  /** From the top of aquifer `i` to its bottom the column rises by the aquifer's discharge. */
  lemma AcrossAquifer(q: seq<real>, i: nat)
    requires i < |q|
    ensures StreamColumn(q)[2 * i + 1] - StreamColumn(q)[2 * i] == q[i]
  {
    assert (2 * i + 1) / 2 == i && (2 * i + 2) / 2 == i + 1;
    assert SumFrom(q, i) == q[i] + SumFrom(q, i + 1);
  }

  /** Across the leaky layer below aquifer `i` the column does not change. */
  lemma AcrossLeakyLayer(q: seq<real>, i: nat)
    requires i + 1 < |q|
    ensures StreamColumn(q)[2 * i + 1] == StreamColumn(q)[2 * i + 2]
  {
    assert (2 * i + 2) / 2 == i + 1 && (2 * i + 3) / 2 == i + 1;
  }

  /** Two aquifers discharging 2 and 3 (top first) give the column -5, -3, -3, 0. */
  lemma TwoAquiferColumn()
    ensures StreamColumn([2.0, 3.0]) == [-5.0, -3.0, -3.0, 0.0]
  {
    var q := [2.0, 3.0];
    assert SumFrom(q, 2) == 0.0;
    assert SumFrom(q, 1) == 3.0;
    assert SumFrom(q, 0) == 5.0;
  }

  /** The loop filling `Qx`: row `l`, column `j` is aquifer `l`'s discharge at sample point `j`. */
  method DischargeGrid(samples: seq<seq<real>>, naq: nat) returns (qx: array2<real>)
    requires forall j :: 0 <= j < |samples| ==> |samples[j]| == naq
    ensures fresh(qx)
    ensures qx.Length0 == naq && qx.Length1 == |samples|
    ensures forall l, j :: 0 <= l < naq && 0 <= j < |samples| ==> qx[l, j] == samples[j][l]
  {
    qx := new real[naq, |samples|];
    for j := 0 to |samples|
      invariant forall l, j' :: 0 <= l < naq && 0 <= j' < j ==> qx[l, j'] == samples[j'][l]
    {
      for l := 0 to naq
        invariant forall l' :: 0 <= l' < l ==> qx[l', j] == samples[j][l']
        invariant forall l', j' :: 0 <= l' < naq && 0 <= j' < j ==> qx[l', j'] == samples[j'][l']
      {
        qx[l, j] := samples[j][l];
      }
    }
  }

  /** `a[::-1]` on a two-dimensional array: the rows in reverse order. */
  method FlipRows(a: array2<real>) returns (b: array2<real>)
    ensures fresh(b)
    ensures b.Length0 == a.Length0 && b.Length1 == a.Length1
    ensures forall k, j :: 0 <= k < a.Length0 && 0 <= j < a.Length1 ==> b[k, j] == a[a.Length0 - 1 - k, j]
  {
    b := new real[a.Length0, a.Length1];
    for k := 0 to a.Length0
      invariant forall k', j :: 0 <= k' < k && 0 <= j < a.Length1 ==> b[k', j] == a[a.Length0 - 1 - k', j]
    {
      for j := 0 to a.Length1
        invariant forall j' :: 0 <= j' < j ==> b[k, j'] == a[a.Length0 - 1 - k, j']
        invariant forall k', j' :: 0 <= k' < k && 0 <= j' < a.Length1 ==> b[k', j'] == a[a.Length0 - 1 - k', j']
      {
        b[k, j] := a[a.Length0 - 1 - k, j];
      }
    }
  }

  /** Row `m` of the grid before its final flip is row `2 naq - 1 - m` of the column. */
  lemma FlipIndex(naq: nat, m: nat)
    requires m < 2 * naq
    ensures naq - (m + 1) / 2 == (2 * naq - 1 - m + 1) / 2
  {
    if m % 2 == 0 {
      assert m == 2 * (m / 2);
    } else {
      assert m == 2 * (m / 2) + 1;
    }
  }

  /** `g[dst] = 0`: one row set to zero, the others untouched. */
  method ZeroRow(g: array2<real>, dst: nat)
    requires dst < g.Length0
    modifies g
    ensures forall j :: 0 <= j < g.Length1 ==> g[dst, j] == 0.0
    ensures forall m, j :: 0 <= m < g.Length0 && m != dst && 0 <= j < g.Length1 ==> g[m, j] == old(g[m, j])
  {
    for j := 0 to g.Length1
      invariant forall j' :: 0 <= j' < j ==> g[dst, j'] == 0.0
      invariant forall m, j' :: 0 <= m < g.Length0 && m != dst && 0 <= j' < g.Length1 ==> g[m, j'] == old(g[m, j'])
    {
      g[dst, j] := 0.0;
    }
  }

  /** `g[dst] = g[src] - q[row]`: one row replaced by another less a row of `q`, the others untouched. */
  method SubtractRow(g: array2<real>, dst: nat, src: nat, q: array2<real>, row: nat)
    requires g != q && dst != src && dst < g.Length0 && src < g.Length0
    requires row < q.Length0 && q.Length1 == g.Length1
    modifies g
    ensures forall j :: 0 <= j < g.Length1 ==> g[dst, j] == old(g[src, j]) - q[row, j]
    ensures forall m, j :: 0 <= m < g.Length0 && m != dst && 0 <= j < g.Length1 ==> g[m, j] == old(g[m, j])
  {
    for j := 0 to g.Length1
      invariant forall j' :: 0 <= j' < j ==> g[dst, j'] == old(g[src, j']) - q[row, j']
      invariant forall m, j' :: 0 <= m < g.Length0 && m != dst && 0 <= j' < g.Length1 ==> g[m, j'] == old(g[m, j'])
    {
      g[dst, j] := g[src, j] - q[row, j];
    }
  }

  /** `g[dst] = g[src]`: one row copied onto another, the others untouched. */
  method CopyRow(g: array2<real>, dst: nat, src: nat)
    requires dst != src && dst < g.Length0 && src < g.Length0
    modifies g
    ensures forall j :: 0 <= j < g.Length1 ==> g[dst, j] == old(g[src, j])
    ensures forall m, j :: 0 <= m < g.Length0 && m != dst && 0 <= j < g.Length1 ==> g[m, j] == old(g[m, j])
  {
    for j := 0 to g.Length1
      invariant forall j' :: 0 <= j' < j ==> g[dst, j'] == old(g[src, j'])
      invariant forall m, j' :: 0 <= m < g.Length0 && m != dst && 0 <= j' < g.Length1 ==> g[m, j'] == old(g[m, j'])
    {
      g[dst, j] := g[src, j];
    }
  }

  /**
   * One pass of the loop over the aquifers counted from the bottom: below the
   * bottom of aquifer `i` (row `2i`) the rows hold minus the discharge below
   * their level; the pass adds its top (row `2i + 1`, its discharge less) and
   * the bottom of the aquifer above, across the leaky layer (row `2i + 2`).
   */
  method AquiferStep(g: array2<real>, up: array2<real>, samples: seq<seq<real>>, naq: nat, i: nat)
    requires g != up && i + 1 < naq && g.Length0 == 2 * naq && g.Length1 == |samples|
    requires up.Length0 == naq && up.Length1 == |samples|
    requires forall j :: 0 <= j < |samples| ==> |samples[j]| == naq
    requires forall i', j :: 0 <= i' < naq && 0 <= j < |samples| ==> up[i', j] == samples[j][naq - 1 - i']
    requires forall m, j :: 0 <= m <= 2 * i && 0 <= j < |samples| ==> g[m, j] == -SumFrom(samples[j], naq - (m + 1) / 2)
    modifies g
    ensures forall m, j :: 0 <= m <= 2 * i + 2 && 0 <= j < |samples| ==> g[m, j] == -SumFrom(samples[j], naq - (m + 1) / 2)
  {
    assert (2 * i + 1) / 2 == i;
    assert forall j :: 0 <= j < |samples| ==> g[2 * i, j] == -SumFrom(samples[j], naq - i);
    SubtractRow(g, 2 * i + 1, 2 * i, up, i);
    forall j | 0 <= j < |samples|
      ensures g[2 * i + 1, j] == -SumFrom(samples[j], naq - 1 - i)
    {
      assert SumFrom(samples[j], naq - 1 - i) == samples[j][naq - 1 - i] + SumFrom(samples[j], naq - i);
    }
    CopyRow(g, 2 * i + 2, 2 * i + 1);
    assert (2 * i + 2) / 2 == i + 1 && (2 * i + 3) / 2 == i + 1;
  }

  /**
   * `Qxgrid` before its final flip, built from the base of the model up from
   * the upside-down discharges `up`: row `m` is minus the discharge below its level.
   */
  method FromBase(up: array2<real>, samples: seq<seq<real>>, naq: nat) returns (g: array2<real>)
    requires 1 <= naq && up.Length0 == naq && up.Length1 == |samples|
    requires forall j :: 0 <= j < |samples| ==> |samples[j]| == naq
    requires forall i, j :: 0 <= i < naq && 0 <= j < |samples| ==> up[i, j] == samples[j][naq - 1 - i]
    ensures fresh(g)
    ensures g.Length0 == 2 * naq && g.Length1 == |samples|
    ensures forall m, j :: 0 <= m < 2 * naq && 0 <= j < |samples| ==> g[m, j] == -SumFrom(samples[j], naq - (m + 1) / 2)
  {
    var nx := |samples|;
    g := new real[2 * naq, nx];
    ZeroRow(g, 0);
    assert forall j :: 0 <= j < nx ==> g[0, j] == -SumFrom(samples[j], naq);
    for i := 0 to naq - 1
      invariant forall m, j :: 0 <= m <= 2 * i && 0 <= j < nx ==> g[m, j] == -SumFrom(samples[j], naq - (m + 1) / 2)
    {
      AquiferStep(g, up, samples, naq, i);
    }
    assert (2 * naq - 2 + 1) / 2 == naq - 1;
    assert forall j :: 0 <= j < nx ==> g[2 * naq - 2, j] == -SumFrom(samples[j], 1);
    SubtractRow(g, 2 * naq - 1, 2 * naq - 2, up, naq - 1);
    forall j | 0 <= j < nx
      ensures g[2 * naq - 1, j] == -SumFrom(samples[j], 0)
    {
      assert SumFrom(samples[j], 0) == samples[j][0] + SumFrom(samples[j], 1);
    }
  }

  /**
   * The construction of `Qxgrid`: with the aquifers turned bottom-up, start at
   * zero, subtract each aquifer's discharge across it, carry the value across
   * the leaky layer above it, and turn the result back top-down. Column `j`
   * is the reference column of the discharges at sample point `j`.
   */
  method Grid(samples: seq<seq<real>>, naq: nat) returns (grid: array2<real>)
    requires 1 <= naq
    requires forall j :: 0 <= j < |samples| ==> |samples[j]| == naq
    ensures fresh(grid)
    ensures grid.Length0 == 2 * naq && grid.Length1 == |samples|
    ensures forall k, j :: 0 <= k < 2 * naq && 0 <= j < |samples| ==> grid[k, j] == StreamColumn(samples[j])[k]
  {
    var qx := DischargeGrid(samples, naq);
    var up := FlipRows(qx);
    var g := FromBase(up, samples, naq);
    grid := FlipRows(g);
    forall k, j | 0 <= k < 2 * naq && 0 <= j < |samples|
      ensures grid[k, j] == StreamColumn(samples[j])[k]
    {
      FlipIndex(naq, k);
    }
  }

  /**
   * `vcontoursf1D` without the drawing: the elevations `zflow` of the aquifer
   * tops and bottoms at the first sample point, and the stream-function grid,
   * one row per elevation, as `contour` needs them. Without sample points
   * there is no first one to look the aquifers up at: an IndexError.
   */
  method FluxContourGrids(samples: seq<seq<real>>, top: seq<real>, bot: seq<real>)
    returns (res: Result<(array<real>, array2<real>)>)
    requires 1 <= |top| && |bot| == |top|
    requires forall j :: 0 <= j < |samples| ==> |samples[j]| == |top|
    ensures res.Failure? <==> |samples| == 0
    ensures res.Failure? ==> res.error == IndexError
    ensures res.Ok? ==> fresh(res.value.0) && fresh(res.value.1)
    ensures res.Ok? ==>
              var zflow, grid := res.value.0, res.value.1;
              zflow.Length == grid.Length0 == 2 * |top| && grid.Length1 == |samples| &&
              (forall i :: 0 <= i < |top| ==> zflow[2 * i] == top[i] && zflow[2 * i + 1] == bot[i]) &&
              (Stacked(top, bot) ==> NonIncreasing(zflow[..])) &&
              forall k, j :: 0 <= k < 2 * |top| && 0 <= j < |samples| ==> grid[k, j] == StreamColumn(samples[j])[k]
  {
    if |samples| == 0 {
      return Failure(IndexError);
    }
    var zflow := Interleave(top, bot);
    var grid := Grid(samples, |top|);
    return Ok((zflow, grid));
  }
}
