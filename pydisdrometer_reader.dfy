/** The ARM Parsivel² netCDF reader of pydisdrometer
    (pydisdrometer/aux_readers/Parsivel2_netCDF_reader.py): the bin and
    velocity tables with truncated bin centers, the epoch time dict, and the
    fields 'Nd' (masked below a concentration of 1), 'velocity' and
    'rain_rate'. */
module PydisdrometerParsivel2Reader {
  import opened Common
  import opened BinGeometry

  /** Bin centers in mm, the first ten truncated to three decimals. */
  const Diameter: seq<real> :=
    [0.062, 0.187, 0.312, 0.437, 0.562, 0.687, 0.812, 0.937, 1.062, 1.187,
     1.375, 1.625, 1.875, 2.125, 2.375, 2.75, 3.25, 3.75, 4.25, 4.75,
     5.5, 6.5, 7.5, 8.5, 9.5, 11.0, 13.0, 15.0, 17.0, 19.0, 21.5, 24.5]

  /** Bin widths in mm. */
  const Spread: seq<real> :=
    [0.125, 0.125, 0.125, 0.125, 0.125, 0.125, 0.125, 0.125, 0.125, 0.125, 0.250,
     0.250, 0.250, 0.250, 0.250, 0.500, 0.500, 0.500, 0.500, 0.500, 1.000, 1.000,
     1.000, 1.000, 1.000, 2.000, 2.000, 2.000, 2.000, 2.000, 3.000, 3.000]

  /** Terminal fall velocity per bin in m/s. */
  const Velocity: seq<real> :=
    [0.05, 0.15, 0.25, 0.35, 0.45, 0.55, 0.65, 0.75, 0.85, 0.95, 1.1, 1.3, 1.5, 1.7, 1.9,
     2.2, 2.6, 3.0, 3.4, 3.8, 4.4, 5.2, 6.0, 6.8, 7.6, 8.8, 10.4, 12.0, 13.6, 15.2,
     17.6, 20.8]

  /** Concentrations below this value are masked. */
  const ValidityFloor: real := 1.0

  /** The largest distance between an edge gap and its bin's spread, in mm. */
  const RoundingSlack: real := 0.0005

  const NdUnits: string := "m^-3 mm^-1"

  /** The 33 edges start at 0 and increase strictly. */
  lemma BinEdgesIncreasing()
    ensures |Diameter| == 32 && |Spread| == 32
    ensures var edges := BinEdges(Diameter, Spread);
      |edges| == 33 && edges[0] == 0.0 && StrictlyIncreasing(edges)
  {
    var edges := BinEdges(Diameter, Spread);
    assert forall i :: 0 <= i < 31 ==> Diameter[i] + Spread[i] / 2.0 < Diameter[i + 1] + Spread[i + 1] / 2.0;
    assert Spread[0] / 2.0 + Diameter[0] > 0.0;
    StepsIncreasing(edges);
  }

  /** Consecutive truncated centers are within half a micrometre of the sum
      of their half spreads. */
  lemma CenterDistancesNearHalfSpreads()
    ensures forall j :: 0 <= j < 31 ==>
      -RoundingSlack <= Diameter[j + 1] - Diameter[j] - Spread[j] / 2.0 - Spread[j + 1] / 2.0 <= RoundingSlack
  {
  }

  /** With the truncated centers each gap between edges is within half a
      micrometre of the bin's spread... */
  lemma EdgeGapsNearSpreads()
    ensures var edges := BinEdges(Diameter, Spread);
      forall i :: 0 <= i < 32 ==>
        -RoundingSlack <= (edges[i + 1] - edges[i]) - Spread[i] <= RoundingSlack
  {
    var edges := BinEdges(Diameter, Spread);
    CenterDistancesNearHalfSpreads();
    forall i | 0 <= i < 32
      ensures -RoundingSlack <= (edges[i + 1] - edges[i]) - Spread[i] <= RoundingSlack
    {
      if i > 0 {
        var j := i - 1;
        assert edges[j + 1] == Diameter[j] + Spread[j] / 2.0;
        assert edges[j + 2] == Diameter[j + 1] + Spread[j + 1] / 2.0;
      }
    }
  }

  /** ...but not equal to it: the first bin is 0.1245 mm wide, not 0.125,
      and its center is not its midpoint, so the bins are not contiguous. */
  lemma EdgesNotMidpoints()
    ensures var edges := BinEdges(Diameter, Spread);
      && edges[1] - edges[0] != Spread[0]
      && Diameter[0] != (edges[0] + edges[1]) / 2.0
      && !Contiguous(Diameter, Spread)
  {
  }

  /** Exactly two gaps differ from their spread: the first bin is 0.1245 mm
      wide instead of 0.125 and the eleventh 0.2505 mm instead of 0.25. */
  lemma OnlyFirstAndEleventhGapsDiffer()
    ensures var edges := BinEdges(Diameter, Spread);
      && (forall i :: 0 <= i < 32 ==> (edges[i + 1] - edges[i] != Spread[i] <==> i == 0 || i == 10))
      && edges[1] - edges[0] == 0.1245 && edges[11] - edges[10] == 0.2505
  {
    var edges := BinEdges(Diameter, Spread);
    CenterStepsOffOnlyAtEleventh();
    forall i | 0 <= i < 32
      ensures edges[i + 1] - edges[i] != Spread[i] <==> i == 0 || i == 10
    {
      if i > 0 {
        assert edges[i + 1] - edges[i] - Spread[i]
               == Diameter[i] - Diameter[i - 1] - Spread[i - 1] / 2.0 - Spread[i] / 2.0;
      }
    }
  }

  /** Between consecutive centers the distance is the sum of the half
      spreads except from the tenth center to the eleventh. */
  lemma CenterStepsOffOnlyAtEleventh()
    ensures Diameter[0] + Spread[0] / 2.0 - Spread[0] == -0.0005
    ensures forall i :: 1 <= i < 32 ==>
      (Diameter[i] - Diameter[i - 1] - Spread[i - 1] / 2.0 - Spread[i] / 2.0 != 0.0 <==> i == 10)
    ensures Diameter[10] - Diameter[9] - Spread[9] / 2.0 - Spread[10] / 2.0 == 0.0005
  {
  }

  /** The velocity table increases strictly. */
  lemma VelocityIncreasing()
    ensures |Velocity| == 32 && StrictlyIncreasing(Velocity)
  {
    assert forall i :: 0 <= i < 31 ==> Velocity[i] < Velocity[i + 1];
    StepsIncreasing(Velocity);
  }

  // ---------------------------------------------------------------------
  // Time and fields

  /** _get_epoch_time: the samples as they are, labelled as epoch seconds. */
  function EpochTime(sampleTimes: seq<int>): (d: TimeDict)
    ensures d.data == sampleTimes && d.fillValue.None?
    ensures d.attrs == map["units" := EpochUnits, "standard_name" := "Time", "long_name" := "Time (UTC)"]
  {
    TimeDict(sampleTimes, map["units" := EpochUnits, "standard_name" := "Time", "long_name" := "Time (UTC)"], None)
  }

  /** np.power(10, ma.transpose(raw)) with every concentration below 1
      masked (lines 59-60, 88-90). The masked array keeps netCDF4's fill
      value. */
  function NdField(v: NcVariable, pow10: real -> real): (d: VarDict)
    requires v.data.Valid()
    ensures d.data.MaskedArray? && d.data.data.Valid() && d.fillValue.None?
    ensures v.data.Matrix? ==>
      && d.data.data.Matrix?
      && var raw, out := v.data.grid, d.data.data.grid;
         && out.rows == raw.cols && out.cols == raw.rows
         && forall t, b :: 0 <= t < out.rows && 0 <= b < out.cols ==>
              && out.cells[t][b].value == pow10(raw.cells[b][t].value)
              && (out.cells[t][b].masked <==> raw.cells[b][t].masked || pow10(raw.cells[b][t].value) < ValidityFloor)
    ensures v.data.Vector? ==>
      && d.data.data.Vector? && |d.data.data.items| == |v.data.items|
      && forall k :: 0 <= k < |v.data.items| ==>
           && d.data.data.items[k].value == pow10(v.data.items[k].value)
           && (d.data.data.items[k].masked <==> v.data.items[k].masked || pow10(v.data.items[k].value) < ValidityFloor)
  {
    var nd := MapData(TransposeData(v.data), Pow10Cell(pow10));
    VarToDict("Nd", MaskedArray(MapData(nd, MaskBelowCell(ValidityFloor)), v.maskFill),
              NdUnits, "Liquid water particle concentration")
  }

  /** x |-> 10^x: strictly increasing, and 1 at 0. */
  ghost predicate IsPowerOfTen(pow10: real -> real)
  {
    && pow10(0.0) == 1.0
    && forall x, y :: x < y ==> pow10(x) < pow10(y)
  }

  /** For a power of ten, an unmasked cell of 'Nd' is masked exactly when its
      raw base-10 logarithm is negative; unmasked values are 10 to the raw value. */
  lemma NdMaskedIffNegativeLog(v: NcVariable, pow10: real -> real, t: nat, b: nat)
    requires v.data.Valid() && v.data.Matrix? && IsPowerOfTen(pow10)
    requires b < v.data.grid.rows && t < v.data.grid.cols
    ensures var out := NdField(v, pow10).data.data.grid; var raw := v.data.grid.cells[b][t];
      && t < out.rows && b < out.cols
      && out.cells[t][b].value == pow10(raw.value)
      && (out.cells[t][b].masked <==> raw.masked || raw.value < 0.0)
  {
    var x := v.data.grid.cells[b][t].value;
    if x < 0.0 {
      assert pow10(x) < pow10(0.0);
    } else if x > 0.0 {
      assert pow10(0.0) < pow10(x);
    }
  }

  function VelocityField(): (d: VarDict)
    ensures d.data == MaskedArray(Vector(Unmasked(Velocity)), DefaultFill)
  {
    VarToDict("velocity", MaskedArray(Vector(Unmasked(Velocity)), DefaultFill), "m s^-1",
              "Terminal fall velocity for each bin")
  }

  /** rain_rate: the intensity values as read (lines 65-66, 94-96). */
  function RainRateField(v: NcVariable): (d: VarDict)
    ensures d.data == MaskedArray(v.data, v.maskFill)
  {
    VarToDict("rain_rate", MaskedArray(v.data, v.maskFill), "mm h^-1", "Rain rate")
  }

  const TimeName: string := "Time"
  const VolumetricDrops: string := "VolumetricDrops"
  const ParsivelIntensity: string := "ParsivelIntensity"

  /** The KeyError __init__ raises for a variable the file lacks. */
  datatype ReadError = MissingVariable(name: string)

  /** The first exception __init__ raises, in the order of its statements:
      none exactly when Time, VolumetricDrops and ParsivelIntensity are all
      there, and otherwise the first of them that is missing. */
  function FirstReadError(ds: NcDataset): (r: Option<ReadError>)
    ensures r.None? <==> ds.time.Some? && VolumetricDrops in ds.variables && ParsivelIntensity in ds.variables
    ensures ds.time.None? ==> r == Some(MissingVariable(TimeName))
    ensures r.Some? && ds.time.Some? ==>
      r == Some(MissingVariable(if VolumetricDrops !in ds.variables then VolumetricDrops else ParsivelIntensity))
  {
    if ds.time.None? then Some(MissingVariable(TimeName))
    else if VolumetricDrops !in ds.variables then Some(MissingVariable(VolumetricDrops))
    else if ParsivelIntensity !in ds.variables then Some(MissingVariable(ParsivelIntensity))
    else None
  }

  /** The fields dict once __init__ has finished: exactly 'Nd', 'velocity'
      and 'rain_rate'. */
  function Fields(ds: NcDataset, pow10: real -> real): (fields: map<string, VarDict>)
    requires FirstReadError(ds).None? && ds.variables[VolumetricDrops].data.Valid()
    ensures fields.Keys == {"Nd", "velocity", "rain_rate"}
  {
    map["Nd" := NdField(ds.variables[VolumetricDrops], pow10),
        "velocity" := VelocityField(),
        "rain_rate" := RainRateField(ds.variables[ParsivelIntensity])]
  }

  /** Parsivel2_netCDF: the reader object after __init__. */
  class Parsivel2NetCdf {
    const filename: string
    var time: TimeDict
    var fields: map<string, VarDict>
    var info: map<string, string>
    var binEdges: VarDict
    var spread: VarDict
    var diameter: VarDict

    /** __init__ on an opened dataset ds; pow10 stands for np.power(10, .). */
    constructor (filename: string, ds: NcDataset, pow10: real -> real)
      requires FirstReadError(ds).None? && ds.variables[VolumetricDrops].data.Valid()
      ensures this.filename == filename
      ensures time == EpochTime(ds.time.value.seconds)
      ensures fields == Fields(ds, pow10)
      ensures info == AttrMap(ds.attributes)
      ensures binEdges == BinEdgesDict(Diameter, Spread) && spread == SpreadDict(Spread) && diameter == DiameterDict(Diameter)
    {
      this.filename := filename;
      time := EpochTime(ds.time.value.seconds);
      new;
      SetBinTables();
      ReadFields(ds, pow10);
      ghost var read := fields;
      ReadGlobalAttributes(ds.attributes);
      assert fields == read;
    }

    /** Lines 67-86: the tables, then the edges computed from them, then the
        tables replaced by their dicts. */
    method SetBinTables()
      modifies this`binEdges, this`spread, this`diameter
      ensures binEdges == BinEdgesDict(Diameter, Spread) && spread == SpreadDict(Spread) && diameter == DiameterDict(Diameter)
    {
      var diameterTable := MaskedArray(Vector(Unmasked(Diameter)), DefaultFill);
      var spreadTable := MaskedArray(Vector(Unmasked(Spread)), DefaultFill);
      binEdges := VarToDict("bin_edges", MaskedArray(Vector(Unmasked(BinEdges(Diameter, Spread))), DefaultFill),
                            "mm", "Boundaries of bin sizes");
      spread := VarToDict("spread", spreadTable, "mm", "Bin size spread of bins");
      diameter := VarToDict("diameter", diameterTable, "mm", "Particle diameter of bins");
    }

    /** Lines 59-66 and 88-96: the three fields. */
    method ReadFields(ds: NcDataset, pow10: real -> real)
      requires FirstReadError(ds).None? && ds.variables[VolumetricDrops].data.Valid()
      modifies this`fields
      ensures fields == Fields(ds, pow10)
    {
      fields := map[];
      var nd := MapData(TransposeData(ds.variables[VolumetricDrops].data), Pow10Cell(pow10));
      var rainRate := MaskedArray(ds.variables[ParsivelIntensity].data, ds.variables[ParsivelIntensity].maskFill);
      fields := fields["Nd" := VarToDict("Nd", MaskedArray(MapData(nd, MaskBelowCell(ValidityFloor)),
                                                           ds.variables[VolumetricDrops].maskFill),
                                         NdUnits, "Liquid water particle concentration")];
      fields := fields["velocity" := VarToDict("velocity", MaskedArray(Vector(Unmasked(Velocity)), DefaultFill),
                                               "m s^-1", "Terminal fall velocity for each bin")];
      fields := fields["rain_rate" := VarToDict("rain_rate", rainRate, "mm h^-1", "Rain rate")];
    }

    /** Lines 51 and 117-118: one info entry per global attribute. */
    method ReadGlobalAttributes(attrs: seq<(string, string)>)
      modifies this`info
      ensures info == AttrMap(attrs)
    {
      info := map[];
      var i := 0;
      while i < |attrs|
        invariant 0 <= i <= |attrs|
        invariant info == AttrMap(attrs[..i])
      {
        assert attrs[..i + 1][..i] == attrs[..i];
        info := info[attrs[i].0 := attrs[i].1];
        i := i + 1;
      }
      assert attrs[..i] == attrs;
    }
  }

  datatype ReadOutcome = Read(reader: Parsivel2NetCdf) | Failed(error: ReadError)

  /** read_parsivel2_netCDF, up to the DropSizeDistribution wrapper. */
  method ReadParsivel2NetCdf(filename: string, ds: NcDataset, pow10: real -> real) returns (r: ReadOutcome)
    requires VolumetricDrops in ds.variables ==> ds.variables[VolumetricDrops].data.Valid()
    ensures r.Failed? <==> FirstReadError(ds).Some?
    ensures r.Failed? ==> r.error == FirstReadError(ds).value
    ensures r.Read? ==> fresh(r.reader) && r.reader.fields == Fields(ds, pow10)
                        && r.reader.time == EpochTime(ds.time.value.seconds) && r.reader.info == AttrMap(ds.attributes)
  {
    var err := FirstReadError(ds);
    if err.Some? {
      return Failed(err.value);
    }
    var reader := new Parsivel2NetCdf(filename, ds, pow10);
    return Read(reader);
  }
}
