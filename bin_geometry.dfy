/** Diameter-bin geometry shared by both Parsivel² readers: the bin edges
    derived from the bin centers and spreads, and what follows from the
    tables when each center sits half a spread above the previous edge. */
module BinGeometry {
  import opened Common

  /** np.hstack((0, diameter + spread / 2)): a zero followed by the upper
      edge of every bin. */
  function BinEdges(diameter: seq<real>, spread: seq<real>): (edges: seq<real>)
    requires |diameter| == |spread|
    ensures |edges| == |diameter| + 1 && edges[0] == 0.0
    ensures forall i :: 0 <= i < |diameter| ==> edges[i + 1] == diameter[i] + spread[i] / 2.0
  {
    [0.0] + seq(|diameter|, i requires 0 <= i < |diameter| => diameter[i] + spread[i] / 2.0)
  }

  predicate StrictlyIncreasing(xs: seq<real>)
  {
    forall i, j :: 0 <= i < j < |xs| ==> xs[i] < xs[j]
  }

  predicate AllPositive(xs: seq<real>)
  {
    forall i :: 0 <= i < |xs| ==> xs[i] > 0.0
  }

  /** Every bin starts where the previous one ends: the first bin starts at
      0 and bin i+1 starts (center minus half its spread) at the upper edge
      of bin i. */
  predicate Contiguous(diameter: seq<real>, spread: seq<real>)
    requires |diameter| == |spread|
  {
    && (|diameter| > 0 ==> diameter[0] - spread[0] / 2.0 == 0.0)
    && forall i :: 0 <= i < |diameter| - 1 ==>
         diameter[i + 1] - spread[i + 1] / 2.0 == diameter[i] + spread[i] / 2.0
  }

  function Sum(xs: seq<real>): real
  {
    if xs == [] then 0.0 else Sum(xs[..|xs| - 1]) + xs[|xs| - 1]
  }

  /** Increasing from each element to the next is increasing overall. */
  lemma {:induction false} StepsIncreasing(xs: seq<real>)
    requires forall i :: 0 <= i < |xs| - 1 ==> xs[i] < xs[i + 1]
    ensures StrictlyIncreasing(xs)
  {
    if |xs| > 1 {
      var init := xs[..|xs| - 1];
      StepsIncreasing(init);
      forall i, j | 0 <= i < j < |xs|
        ensures xs[i] < xs[j]
      {
        if j < |xs| - 1 {
          assert init[i] < init[j];
        } else if i < j - 1 {
          assert init[i] < init[j - 1];
        }
      }
    }
  }

  /** For contiguous bins, the gap between consecutive edges is the bin's
      spread and each center is the midpoint of its two edges. */
  lemma ContiguousEdges(diameter: seq<real>, spread: seq<real>)
    requires |diameter| == |spread| && Contiguous(diameter, spread)
    ensures var edges := BinEdges(diameter, spread);
      forall i :: 0 <= i < |diameter| ==>
        edges[i + 1] - edges[i] == spread[i] && diameter[i] == (edges[i] + edges[i + 1]) / 2.0
  {
    var edges := BinEdges(diameter, spread);
    forall i | 0 <= i < |diameter|
      ensures edges[i + 1] - edges[i] == spread[i]
    {
      if i > 0 {
        assert edges[i] == diameter[i - 1] + spread[i - 1] / 2.0;
      }
    }
  }

  /** For contiguous bins the k-th edge is the total spread of the first k
      bins, so the bins tile [0, Sum(spread)]. */
  lemma {:induction false} ContiguousEdgeIsSpreadSum(diameter: seq<real>, spread: seq<real>, k: nat)
    requires |diameter| == |spread| && Contiguous(diameter, spread)
    requires k <= |diameter|
    ensures BinEdges(diameter, spread)[k] == Sum(spread[..k])
  {
    if k > 0 {
      ContiguousEdgeIsSpreadSum(diameter, spread, k - 1);
      ContiguousEdges(diameter, spread);
      assert spread[..k][..k - 1] == spread[..k - 1];
    }
  }

  /** Contiguous bins with positive spreads have strictly increasing edges. */
  lemma ContiguousEdgesIncreasing(diameter: seq<real>, spread: seq<real>)
    requires |diameter| == |spread| && Contiguous(diameter, spread) && AllPositive(spread)
    ensures StrictlyIncreasing(BinEdges(diameter, spread))
  {
    ContiguousEdges(diameter, spread);
    StepsIncreasing(BinEdges(diameter, spread));
  }

  // ---------------------------------------------------------------------
  // The tables as the readers store them

  /** The 'bin_edges' dict: np.hstack of a masked array gives a masked
      array with nothing masked and numpy's default fill value. */
  function BinEdgesDict(diameter: seq<real>, spread: seq<real>): (d: VarDict)
    requires |diameter| == |spread|
    ensures d.data == MaskedArray(Vector(Unmasked(BinEdges(diameter, spread))), DefaultFill)
    ensures d.fillValue.None? && "units" in d.attrs && d.attrs["units"] == "mm"
    ensures "standard_name" in d.attrs && d.attrs["standard_name"] == "bin_edges"
  {
    VarToDict("bin_edges", MaskedArray(Vector(Unmasked(BinEdges(diameter, spread))), DefaultFill),
              "mm", "Boundaries of bin sizes")
  }

  /** The 'spread' dict: the unmasked spread table in mm. */
  function SpreadDict(spread: seq<real>): (d: VarDict)
    ensures d.data == MaskedArray(Vector(Unmasked(spread)), DefaultFill)
    ensures d.fillValue.None? && "units" in d.attrs && d.attrs["units"] == "mm"
    ensures "standard_name" in d.attrs && d.attrs["standard_name"] == "spread"
  {
    VarToDict("spread", MaskedArray(Vector(Unmasked(spread)), DefaultFill), "mm", "Bin size spread of bins")
  }

  /** The 'diameter' dict: the unmasked center table in mm. */
  function DiameterDict(diameter: seq<real>): (d: VarDict)
    ensures d.data == MaskedArray(Vector(Unmasked(diameter)), DefaultFill)
    ensures d.fillValue.None? && "units" in d.attrs && d.attrs["units"] == "mm"
    ensures "standard_name" in d.attrs && d.attrs["standard_name"] == "diameter"
  {
    VarToDict("diameter", MaskedArray(Vector(Unmasked(diameter)), DefaultFill), "mm", "Particle diameter of bins")
  }
}
