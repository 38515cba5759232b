/** The OTT Parsivel² netCDF reader of pydsd
    (pydsd/aux_readers/Parsivel2_netCDF_reader.py): the instrument's bin
    tables, the synthetic 30 s time axis, and the normalisation of each
    netCDF variable into the reader's field dicts. */
module PydsdParsivel2Reader {
  import opened Common
  import opened BinGeometry

  /** Bin centers in mm. */
  const Diameter: seq<real> :=
    [0.0625, 0.1875, 0.3125, 0.4375, 0.5625, 0.6875, 0.8125, 0.9375, 1.0625,
     1.1875, 1.375, 1.625, 1.875, 2.125, 2.375, 2.75, 3.25, 3.75, 4.25,
     4.75, 5.5, 6.5, 7.5, 8.5, 9.5, 11.0, 13.0, 15.0, 17.0, 19.0, 21.5, 24.5]

  /** Bin widths in mm. */
  const Spread: seq<real> :=
    [0.125, 0.125, 0.125, 0.125, 0.125, 0.125, 0.125, 0.125, 0.125, 0.125,
     0.250, 0.250, 0.250, 0.250, 0.250, 0.500, 0.500, 0.500, 0.500, 0.500,
     1.000, 1.000, 1.000, 1.000, 1.000, 2.000, 2.000, 2.000, 2.000, 2.000,
     3.000, 3.000]

  const NdUnits: string := "1/m^3 1/mm"
  const TimeUnits: string := "Datetime objects"

  /** Seconds between two consecutive timestamps of the synthetic time axis. */
  const SampleInterval: int := 30

  /** The two tables describe 32 contiguous bins of positive width. */
  lemma TablesContiguous()
    ensures |Diameter| == 32 && |Spread| == 32
    ensures Contiguous(Diameter, Spread) && AllPositive(Spread)
  {
    assert forall i :: 0 <= i < 31 ==> Diameter[i + 1] - Spread[i + 1] / 2.0 == Diameter[i] + Spread[i] / 2.0;
    assert forall i :: 0 <= i < 32 ==> Spread[i] > 0.0;
  }

  /** The 33 edges start at 0, end at 26 mm, increase strictly, are one
      spread apart, and each center is the midpoint of its bin. */
  lemma BinEdgesTileZeroToTwentySix()
    ensures var edges := BinEdges(Diameter, Spread);
      && |edges| == 33 && edges[0] == 0.0 && edges[32] == 26.0
      && StrictlyIncreasing(edges)
      && forall i :: 0 <= i < 32 ==>
           edges[i + 1] - edges[i] == Spread[i] && Diameter[i] == (edges[i] + edges[i + 1]) / 2.0
  {
    TablesContiguous();
    ContiguousEdges(Diameter, Spread);
    ContiguousEdgesIncreasing(Diameter, Spread);
  }

  // ---------------------------------------------------------------------
  // Time axis

  /** get_datetime_from_epoch: one timestamp per sample, the first at the
      first sample and each 30 s after the previous. None is the IndexError
      raised on an empty input. */
  function DatetimeFromEpoch(sampleTimes: seq<int>): (r: Option<seq<int>>)
    ensures r.None? <==> sampleTimes == []
    ensures r.Some? ==> |r.value| == |sampleTimes|
    ensures r.Some? ==> forall i :: 0 <= i < |r.value| ==> r.value[i] == sampleTimes[0] + SampleInterval * i
  {
    if sampleTimes == [] then None
    else Some(seq(|sampleTimes|, i requires 0 <= i < |sampleTimes| => sampleTimes[0] + SampleInterval * i))
  }

  /** The synthetic axis is strictly increasing, whatever the samples were. */
  lemma DatetimeFromEpochIncreasing(sampleTimes: seq<int>, i: nat, j: nat)
    requires i < j < |sampleTimes|
    ensures DatetimeFromEpoch(sampleTimes).Some?
    ensures DatetimeFromEpoch(sampleTimes).value[i] < DatetimeFromEpoch(sampleTimes).value[j]
  {
  }

  /** Only the first sample and the number of samples are read. */
  lemma DatetimeFromEpochReadsFirstSample(a: seq<int>, b: seq<int>)
    requires |a| == |b| && a != [] && a[0] == b[0]
    ensures DatetimeFromEpoch(a) == DatetimeFromEpoch(b)
  {
  }

  // ---------------------------------------------------------------------
  // Field normalisation

  /** The time dict (lines 59-62): synthetic datetimes, units relabelled,
      '_FillValue' deleted. */
  function TimeField(v: TimeVariable): (d: TimeDict)
    requires v.seconds != []
    ensures d.fillValue.None? && d.attrs == v.attrs[ "units" := TimeUnits ]
    ensures |d.data| == |v.seconds| && d.data[0] == v.seconds[0]
    ensures forall i :: 0 <= i < |d.data| - 1 ==> d.data[i + 1] == d.data[i] + SampleInterval
  {
    TimeDict(DatetimeFromEpoch(v.seconds).value, v.attrs["units" := TimeUnits], None)
  }

  /** The 'Nd' dict (lines 64-69): 10 raised to the raw values, transposed
      to time-major order, masked cells filled with 0, '_FillValue' deleted
      and the unit relabelled. */
  function NdField(v: NcVariable, pow10: real -> real): (d: VarDict)
    requires v.data.Valid()
    ensures d.data.PlainArray? && d.data.data.Valid() && d.fillValue.None?
    ensures d.attrs == v.attrs[ "units" := NdUnits ]
    ensures v.data.Matrix? ==>
      && d.data.data.Matrix?
      && var raw, out := v.data.grid, d.data.data.grid;
         && out.rows == raw.cols && out.cols == raw.rows
         && forall t, b :: 0 <= t < out.rows && 0 <= b < out.cols ==>
              out.cells[t][b] == Cell(if raw.cells[b][t].masked then 0.0 else pow10(raw.cells[b][t].value), false)
    ensures v.data.Vector? ==>
      && d.data.data.Vector? && |d.data.data.items| == |v.data.items|
      && forall k :: 0 <= k < |v.data.items| ==>
           d.data.data.items[k] == Cell(if v.data.items[k].masked then 0.0 else pow10(v.data.items[k].value), false)
  {
    var powered := TransposeData(MapData(v.data, Pow10Cell(pow10)));
    VarDict(PlainArray(MapData(powered, FillCell(0.0))), v.attrs["units" := NdUnits], None)
  }

  /** The 'RR', 'num_particles' and 'terminal_velocity' dicts (lines 71-74,
      79-91): a masked array whose fill value is the variable's netCDF
      '_FillValue', transposed where asked, with '_FillValue' deleted. */
  function NetCdfFilledField(v: NcVariable, transpose: bool): (d: VarDict)
    requires v.data.Valid() && v.fillValue.Some?
    ensures d.data == MaskedArray(if transpose then TransposeData(v.data) else v.data, v.fillValue.value)
    ensures d.attrs == v.attrs && d.fillValue.None?
  {
    var data := if transpose then TransposeData(v.data) else v.data;
    VarDict(MaskedArray(data, v.fillValue.value), v.attrs, None)
  }

  /** The 'Zh' dict (lines 76-77): the values, mask and attributes as read,
      with '_FillValue' deleted. */
  function ReflectivityField(v: NcVariable): (d: VarDict)
    ensures d.data == MaskedArray(v.data, v.maskFill) && d.attrs == v.attrs && d.fillValue.None?
  {
    NcVarToDict(v).(fillValue := None)
  }

  const TimeName: string := "Time"
  const VolumetricDrops: string := "VolumetricDrops"
  const ParsivelIntensity: string := "ParsivelIntensity"
  const Reflectivity: string := "Reflectivity"
  const RawDrops: string := "RawDrops"
  const VelocityDrops: string := "VelocityDrops"
  const PrecipCode: string := "PrecipCode"
  const FillValueKey: string := "_FillValue"

  /** What reading the file raises: a variable the file lacks (KeyError), a
      '_FillValue' attribute that is read or deleted but absent (KeyError),
      or an empty time axis (IndexError in get_datetime_from_epoch). */
  datatype ReadError = MissingVariable(name: string) | MissingAttribute(variable: string, attribute: string) | EmptyTimeAxis

  /** The variable is there, and so is its '_FillValue' if it is needed:
      otherwise the KeyError, naming what is missing. */
  function VariableError(ds: NcDataset, name: string, needsFill: bool): (r: Option<ReadError>)
    ensures r.None? <==> name in ds.variables && (needsFill ==> ds.variables[name].fillValue.Some?)
    ensures r.Some? ==> (r.value == MissingVariable(name) <==> name !in ds.variables)
    ensures r.Some? && name in ds.variables ==> r.value == MissingAttribute(name, FillValueKey)
  {
    if name !in ds.variables then Some(MissingVariable(name))
    else if needsFill && ds.variables[name].fillValue.None? then Some(MissingAttribute(name, FillValueKey))
    else None
  }

  /** The first exception of checks made one after the other. */
  function FirstOf(checks: seq<Option<ReadError>>): (r: Option<ReadError>)
    ensures r.None? <==> forall j :: 0 <= j < |checks| ==> checks[j].None?
    ensures r.Some? ==> exists j :: 0 <= j < |checks| && checks[j] == r && forall k :: 0 <= k < j ==> checks[k].None?
  {
    if checks == [] then None
    else if checks[0].Some? then checks[0]
    else
      var rest := FirstOf(checks[1..]);
      assert rest.Some? ==> exists j :: 1 <= j < |checks| && checks[j] == rest && forall k :: 0 <= k < j ==> checks[k].None?
      by {
        if rest.Some? {
          var j :| 0 <= j < |checks| - 1 && checks[1..][j] == rest && forall k :: 0 <= k < j ==> checks[1..][k].None?;
          assert forall k :: 0 <= k < j + 1 ==> checks[k].None? by {
            forall k | 0 <= k < j + 1 ensures checks[k].None? {
              if k > 0 { assert checks[k] == checks[1..][k - 1]; }
            }
          }
        }
      }
      rest
  }

  /** FirstOf looks at one check at a time. */
  lemma FirstOfStep(checks: seq<Option<ReadError>>, i: nat)
    requires i < |checks|
    ensures FirstOf(checks[i..]) == if checks[i].Some? then checks[i] else FirstOf(checks[i + 1..])
  {
    assert checks[i..][1..] == checks[i + 1..];
  }

  /** Over six checks, FirstOf is the first one that fails, tried in turn. */
  lemma FirstOfSix(checks: seq<Option<ReadError>>)
    requires |checks| == 6
    ensures FirstOf(checks) == if checks[0].Some? then checks[0] else if checks[1].Some? then checks[1]
                               else if checks[2].Some? then checks[2] else if checks[3].Some? then checks[3]
                               else if checks[4].Some? then checks[4] else checks[5]
  {
    assert checks[0..] == checks && checks[6..] == [];
    FirstOfStep(checks, 0); FirstOfStep(checks, 1); FirstOfStep(checks, 2);
    FirstOfStep(checks, 3); FirstOfStep(checks, 4); FirstOfStep(checks, 5);
  }

  /** The variable reads of __init__ after the time axis, in statement
      order: five that need a '_FillValue', then the precipitation code. */
  function VariableChecks(ds: NcDataset): (checks: seq<Option<ReadError>>)
    ensures |checks| == 6
  {
    [VariableError(ds, VolumetricDrops, true), VariableError(ds, ParsivelIntensity, true),
     VariableError(ds, Reflectivity, true), VariableError(ds, RawDrops, true),
     VariableError(ds, VelocityDrops, true), VariableError(ds, PrecipCode, false)]
  }

  /** The first exception __init__ raises, in the order of its statements.
      There is none exactly when the time axis is there and not empty, all
      seven variables are there, and each of the six that need one has its
      '_FillValue'. */
  function FirstReadError(ds: NcDataset): (r: Option<ReadError>)
    ensures r.None? <==>
      && ds.time.Some? && ds.time.value.seconds != [] && ds.time.value.fillValue.Some?
      && VolumetricDrops in ds.variables && ParsivelIntensity in ds.variables && Reflectivity in ds.variables
      && RawDrops in ds.variables && VelocityDrops in ds.variables && PrecipCode in ds.variables
      && ds.variables[VolumetricDrops].fillValue.Some? && ds.variables[ParsivelIntensity].fillValue.Some?
      && ds.variables[Reflectivity].fillValue.Some? && ds.variables[RawDrops].fillValue.Some?
      && ds.variables[VelocityDrops].fillValue.Some?
    ensures ds.time.None? ==> r == Some(MissingVariable(TimeName))
  {
    if ds.time.None? then Some(MissingVariable(TimeName))
    else if ds.time.value.seconds == [] then Some(EmptyTimeAxis)
    else if ds.time.value.fillValue.None? then Some(MissingAttribute(TimeName, FillValueKey))
    else if VariableError(ds, VolumetricDrops, true).Some? then VariableError(ds, VolumetricDrops, true)
    else if VariableError(ds, ParsivelIntensity, true).Some? then VariableError(ds, ParsivelIntensity, true)
    else if VariableError(ds, Reflectivity, true).Some? then VariableError(ds, Reflectivity, true)
    else if VariableError(ds, RawDrops, true).Some? then VariableError(ds, RawDrops, true)
    else if VariableError(ds, VelocityDrops, true).Some? then VariableError(ds, VelocityDrops, true)
    else VariableError(ds, PrecipCode, false)
  }

  /** The order of the exceptions: a missing 'Time', then an empty time
      axis, then Time's missing '_FillValue', then the first of the
      variable reads that fails, in statement order. */
  lemma FirstReadErrorOrder(ds: NcDataset)
    ensures ds.time.Some? ==> (FirstReadError(ds) == Some(EmptyTimeAxis) <==> ds.time.value.seconds == [])
    ensures ds.time.Some? && ds.time.value.seconds != [] ==>
      (FirstReadError(ds) == Some(MissingAttribute(TimeName, FillValueKey)) <==> ds.time.value.fillValue.None?)
    ensures ds.time.Some? && ds.time.value.seconds != [] && ds.time.value.fillValue.Some? ==>
      FirstReadError(ds) == FirstOf(VariableChecks(ds))
  {
    FirstOfSix(VariableChecks(ds));
  }

  /** Every netCDF variable is a rectangular array. */
  predicate WellShaped(ds: NcDataset)
  {
    forall name :: name in ds.variables ==> ds.variables[name].data.Valid()
  }

  /** The reader's fields dict once __init__ has finished. */
  function Fields(ds: NcDataset, pow10: real -> real): (fields: map<string, VarDict>)
    requires FirstReadError(ds).None? && WellShaped(ds)
    ensures fields.Keys == {"Nd", "RR", "Zh", "num_particles", "terminal_velocity", "Precip_Code"}
  {
    map["Nd" := NdField(ds.variables[VolumetricDrops], pow10),
        "RR" := NetCdfFilledField(ds.variables[ParsivelIntensity], false),
        "Zh" := ReflectivityField(ds.variables[Reflectivity]),
        "num_particles" := NetCdfFilledField(ds.variables[RawDrops], false),
        "terminal_velocity" := NetCdfFilledField(ds.variables[VelocityDrops], true),
        "Precip_Code" := NcVarToDict(ds.variables[PrecipCode])]
  }

  /** '_FillValue' bookkeeping: the key is gone from every field but
      'Precip_Code', which keeps the variable's own; 'RR', 'num_particles'
      and 'terminal_velocity' carry the netCDF fill value as their masked
      array fill value; 'Nd' is a plain array with nothing masked. */
  lemma FillValueBookkeeping(ds: NcDataset, pow10: real -> real)
    requires FirstReadError(ds).None? && WellShaped(ds)
    ensures var fields := Fields(ds, pow10);
      && (forall k :: k in fields && k != "Precip_Code" ==> fields[k].fillValue.None?)
      && fields["Precip_Code"].fillValue == ds.variables[PrecipCode].fillValue
      && fields["RR"].data.MaskedArray? && fields["RR"].data.fill == ds.variables[ParsivelIntensity].fillValue.value
      && fields["num_particles"].data.MaskedArray?
      && fields["num_particles"].data.fill == ds.variables[RawDrops].fillValue.value
      && fields["terminal_velocity"].data.MaskedArray?
      && fields["terminal_velocity"].data.fill == ds.variables[VelocityDrops].fillValue.value
      && fields["Nd"].data.PlainArray?
  {
    assert ds.variables[VolumetricDrops].data.Valid();
  }

  /** Parsivel2_netCDF: the reader object after __init__. */
  class Parsivel2NetCdf {
    const filename: string
    var time: TimeDict
    var fields: map<string, VarDict>
    var info: map<string, string>
    var binEdges: VarDict
    var spread: VarDict
    var diameter: VarDict

    /** __init__ on an opened dataset ds; pow10 stands for np.power(10, .).
        The body runs the four stages of __init__ in the source's order. */
    constructor (filename: string, ds: NcDataset, pow10: real -> real)
      requires FirstReadError(ds).None? && WellShaped(ds)
      ensures this.filename == filename
      ensures time == TimeField(ds.time.value)
      ensures fields == Fields(ds, pow10)
      ensures info == AttrMap(ds.attributes)
      ensures binEdges == BinEdgesDict(Diameter, Spread) && spread == SpreadDict(Spread) && diameter == DiameterDict(Diameter)
    {
      this.filename := filename;
      new;
      ReadTime(ds.time.value);
      ReadFields(ds, pow10);
      ghost var read := (time, fields);
      SetBinTables();
      ReadGlobalAttributes(ds.attributes);
      assert (time, fields) == read;
    }

    /** Lines 59-62: the time dict. */
    method ReadTime(v: TimeVariable)
      requires v.seconds != [] && v.fillValue.Some?
      modifies this`time
      ensures time == TimeField(v)
    {
      var t := NcTimeToDict(v);
      t := t.(data := DatetimeFromEpoch(t.data).value);
      t := t.(attrs := t.attrs["units" := TimeUnits]);
      t := t.(fillValue := None);
      time := t;
    }

    /** Lines 53 and 64-93: the fields dict, filled one variable at a time. */
    method ReadFields(ds: NcDataset, pow10: real -> real)
      requires FirstReadError(ds).None? && WellShaped(ds)
      modifies this`fields
      ensures fields == Fields(ds, pow10)
    {
      fields := map[];

      var nd := NcVarToDict(ds.variables[VolumetricDrops]);
      assert ds.variables[VolumetricDrops].data.Valid();
      nd := nd.(data := MaskedArray(TransposeData(MapData(nd.data.data, Pow10Cell(pow10))), nd.data.fill));
      nd := nd.(data := MaskedArray(nd.data.data, 0.0));
      nd := nd.(data := PlainArray(MapData(nd.data.data, FillCell(nd.data.fill))));
      nd := nd.(fillValue := None);
      nd := nd.(attrs := nd.attrs["units" := NdUnits]);
      fields := fields["Nd" := nd];

      var rr := NcVarToDict(ds.variables[ParsivelIntensity]);
      rr := rr.(data := MaskedArray(rr.data.data, rr.fillValue.value));
      rr := rr.(fillValue := None);
      fields := fields["RR" := rr];

      var zh := NcVarToDict(ds.variables[Reflectivity]);
      zh := zh.(fillValue := None);
      fields := fields["Zh" := zh];

      var np := NcVarToDict(ds.variables[RawDrops]);
      np := np.(data := MaskedArray(np.data.data, np.fillValue.value));
      np := np.(fillValue := None);
      fields := fields["num_particles" := np];

      var tv := NcVarToDict(ds.variables[VelocityDrops]);
      assert ds.variables[VelocityDrops].data.Valid();
      tv := tv.(data := MaskedArray(TransposeData(tv.data.data), tv.data.fill));
      tv := tv.(data := MaskedArray(tv.data.data, tv.fillValue.value));
      tv := tv.(fillValue := None);
      fields := fields["terminal_velocity" := tv];

      fields := fields["Precip_Code" := NcVarToDict(ds.variables[PrecipCode])];
    }

    /** Lines 95-117: the bin tables and their edges. */
    method SetBinTables()
      modifies this`binEdges, this`spread, this`diameter
      ensures binEdges == BinEdgesDict(Diameter, Spread) && spread == SpreadDict(Spread) && diameter == DiameterDict(Diameter)
    {
      binEdges := VarToDict("bin_edges", MaskedArray(Vector(Unmasked(BinEdges(Diameter, Spread))), DefaultFill),
                            "mm", "Boundaries of bin sizes");
      spread := VarToDict("spread", MaskedArray(Vector(Unmasked(Spread)), DefaultFill),
                          "mm", "Bin size spread of bins");
      diameter := VarToDict("diameter", MaskedArray(Vector(Unmasked(Diameter)), DefaultFill),
                            "mm", "Particle diameter of bins");
    }

    /** Lines 54 and 119-120: one info entry per global attribute. */
    method ReadGlobalAttributes(attrs: seq<(string, string)>)
      modifies this`info
      ensures info == AttrMap(attrs)
    {
      info := map[];
      var i := 0;
      while i < |attrs|
        invariant 0 <= i <= |attrs|
        invariant info == AttrMap(attrs[..i])
      {
        assert attrs[..i + 1][..i] == attrs[..i];
        info := info[attrs[i].0 := attrs[i].1];
        i := i + 1;
      }
      assert attrs[..i] == attrs;
    }
  }

  datatype ReadOutcome = Read(reader: Parsivel2NetCdf) | Failed(error: ReadError)

  /** read_parsivel2_netCDF, up to the DropSizeDistribution wrapper: the
      reader, or the exception that __init__ raises first. */
  method ReadParsivel2NetCdf(filename: string, ds: NcDataset, pow10: real -> real) returns (r: ReadOutcome)
    requires WellShaped(ds)
    ensures r.Failed? <==> FirstReadError(ds).Some?
    ensures r.Failed? ==> r.error == FirstReadError(ds).value
    ensures r.Read? ==> fresh(r.reader) && r.reader.fields == Fields(ds, pow10)
                        && r.reader.time == TimeField(ds.time.value) && r.reader.info == AttrMap(ds.attributes)
  {
    var err := FirstReadError(ds);
    if err.Some? {
      return Failed(err.value);
    }
    var reader := new Parsivel2NetCdf(filename, ds, pow10);
    return Read(reader);
  }
}
