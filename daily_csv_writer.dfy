/** pydsd/io/csv_writer.py: the daily time-series export of one variable
    to a CSV file named after the date, the station, the scattering
    frequency and the Pyrad field name, under a fixed data directory. */
module DailyCsvWriter {
  import opened Common
  import opened Csv
  import opened ExportCommon
  import opened Dsd

  // ---------------------------------------------------------------------
  // Field names

  /** get_fieldname_pyrad: the Pyrad field name of a PyDSD data type. It
      accepts exactly the names of the table PyradNames, with the table's
      images, and raises ValueError naming anything else. */
  function FieldNamePyrad(dataType: string): (r: Result<string>)
    ensures r.Ok? <==> dataType in PyradNames
    ensures r.Ok? ==> r.value == PyradNames[dataType]
    ensures r.Err? ==> r == Err(UnknownDataType(dataType))
  {
    if dataType == "Nd" then Ok("Nd")
    else if dataType == "RR" then Ok("RR")
    else if dataType == "W" then Ok("LWC")
    else if dataType == "Zh" then Ok("dBZ")
    else if dataType == "Zv" then Ok("dBZv")
    else if dataType == "Zdr" then Ok("ZDR")
    else if dataType == "cross_correlation_ratio_hv" then Ok("RhoHV")
    else if dataType == "specific_differential_phase_hv" then Ok("DeltaCo")
    else if dataType == "Ai" then Ok("Ah")
    else if dataType == "Av" then Ok("Av")
    else if dataType == "Adr" then Ok("Adp")
    else if dataType == "Kdp" then Ok("KDP")
    else if dataType == "LDR" then Ok("LDR")
    else Err(UnknownDataType(dataType))
  }

  /** The correspondence written as a table. */
  const PyradNames: map<string, string> := map[
    "Nd" := "Nd", "RR" := "RR", "W" := "LWC", "Zh" := "dBZ", "Zv" := "dBZv", "Zdr" := "ZDR",
    "cross_correlation_ratio_hv" := "RhoHV", "specific_differential_phase_hv" := "DeltaCo",
    "Ai" := "Ah", "Av" := "Av", "Adr" := "Adp", "Kdp" := "KDP", "LDR" := "LDR"]

  /** Distinct data types get distinct Pyrad names. */
  lemma FieldNamePyradInjective(a: string, b: string)
    requires FieldNamePyrad(a).Ok? && FieldNamePyrad(b).Ok? && a != b
    ensures FieldNamePyrad(a).value != FieldNamePyrad(b).value
  {
  }

  // ---------------------------------------------------------------------
  // File name and directory

  /** The default fillvalue argument of write_csv_file. */
  const DefaultFillValue: real := -9999.0

  const BasePath: string := "/data/disdrometer/mals_parsivel/amfortas/scattering/"

  /** str(dsd.scattering_freq*10**-9)[0:3]: the first three characters of
      the frequency in GHz. */
  function FreqText(fmt: Format, s: DsdState): (r: string)
    ensures |r| == if |fmt.str(s.scatteringFreq / 1000000000.0)| < 3 then |fmt.str(s.scatteringFreq / 1000000000.0)| else 3
    ensures r == fmt.str(s.scatteringFreq / 1000000000.0)[..|r|]
  {
    Prefix(fmt.str(s.scatteringFreq / 1000000000.0), 3)
  }

  /** fname, built left to right: a missing 'StationName' is noticed before
      an unknown data type. */
  function FileName(fmt: Format, s: DsdState, date: string, dataType: string): (r: Result<string>)
    ensures "StationName" !in s.info ==> r == Err(MissingKey("StationName"))
    ensures "StationName" in s.info ==> (r.Ok? <==> FieldNamePyrad(dataType).Ok?)
    ensures "StationName" in s.info && FieldNamePyrad(dataType).Err? ==> r == Err(UnknownDataType(dataType))
    ensures r.Ok? ==> r.value == date + "_" + s.info["StationName"] + "_" + FreqText(fmt, s) + "GHz_"
                                 + FieldNamePyrad(dataType).value + "_el90.0.csv"
  {
    if "StationName" !in s.info then Err(MissingKey("StationName"))
    else match FieldNamePyrad(dataType)
      case Err(e) => Err(e)
      case Ok(field) =>
        Ok(date + "_" + s.info["StationName"] + "_" + FreqText(fmt, s) + "GHz_" + field + "_el90.0.csv")
  }

  /** basepath + datapath: the year and the year-month of the date. */
  function Directory(date: string): (dir: string)
    ensures |BasePath| < |dir| && dir[..|BasePath|] == BasePath && dir[|dir| - 1] == '/'
    ensures |date| >= 6 ==> dir == BasePath + date[..4] + "/" + date[..6] + "/"
    ensures |date| < 4 ==> dir == BasePath + date + "/" + date + "/"
  {
    BasePath + Prefix(date, 4) + "/" + Prefix(date, 6) + "/"
  }

  /** The directory that pathlib.Path(basepath+datapath).mkdir creates: it
      is reached only once the file name has been built. */
  function CreatedDirectory(fmt: Format, s: DsdState, date: string, dataType: string): (r: Option<string>)
    ensures r.Some? <==> "StationName" in s.info && dataType in PyradNames
    ensures r.Some? ==> r.value == Directory(date)
  {
    if FileName(fmt, s, date, dataType).Ok? then Some(Directory(date)) else None
  }

  // ---------------------------------------------------------------------
  // Fill value

  /** np.ma.set_fill_value(dsd.fields[var]['data'], fillvalue): the fill
      value of a masked array is replaced; anything else is left alone. */
  function WithFill(d: VarDict, fillvalue: real): (r: VarDict)
    ensures r.attrs == d.attrs && r.fillValue == d.fillValue
    ensures d.data.MaskedArray? ==> r.data == MaskedArray(d.data.data, fillvalue)
    ensures d.data.PlainArray? ==> r == d
  {
    match d.data
    case MaskedArray(values, _) => VarDict(MaskedArray(values, fillvalue), d.attrs, d.fillValue)
    case PlainArray(_) => d
  }

  /** .filled() after the fill value is set: a masked array with each masked
      element replaced by fillvalue; a plain ndarray has no such method. */
  function FilledData(d: VarDict, fillvalue: real): (r: Result<NcData>)
    requires d.data.data.Valid()
    ensures r.Ok? <==> d.data.MaskedArray?
    ensures r.Err? ==> r.error == NoFilledMethod
    ensures r.Ok? ==> r.value.Valid() && r.value.Vector? == d.data.data.Vector?
    ensures r.Ok? && d.data.data.Vector? ==>
      && |r.value.items| == |d.data.data.items|
      && forall k :: 0 <= k < |r.value.items| ==>
           r.value.items[k] == Cell(if d.data.data.items[k].masked then fillvalue else d.data.data.items[k].value, false)
    ensures r.Ok? && d.data.data.Matrix? ==>
      && r.value.grid.rows == d.data.data.grid.rows && r.value.grid.cols == d.data.data.grid.cols
      && forall i, j :: 0 <= i < r.value.grid.rows && 0 <= j < r.value.grid.cols ==>
           var c := d.data.data.grid.cells[i][j];
           r.value.grid.cells[i][j] == Cell(if c.masked then fillvalue else c.value, false)
  {
    match d.data
    case MaskedArray(values, _) => Ok(MapData(values, FillCell(fillvalue)))
    case PlainArray(_) => Err(NoFilledMethod)
  }

  /** Every masked element is exported as the fill value, every other one
      unchanged: for one-dimensional data the cell of row i, for
      two-dimensional data (such as Nd) every element of row i. */
  lemma MaskedWrittenAsFill(fmt: Format, d: VarDict, fillvalue: real, i: nat)
    requires d.data.MaskedArray? && d.data.data.Valid() && i < Length(d.data.data)
    ensures d.data.data.Vector? ==>
      var c := d.data.data.items[i];
      ElementText(fmt, FilledData(d, fillvalue).value, i) == fmt.cell(if c.masked then fillvalue else c.value)
    ensures d.data.data.Matrix? ==>
      var row := d.data.data.grid.cells[i];
      ElementText(fmt, FilledData(d, fillvalue).value, i)
        == fmt.row(seq(|row|, j requires 0 <= j < |row| => Cell(if row[j].masked then fillvalue else row[j].value, false)))
  {
    var data := FilledData(d, fillvalue).value;
    if d.data.data.Matrix? {
      var row := d.data.data.grid.cells[i];
      assert data.grid.cells[i] == seq(|row|, j requires 0 <= j < |row| => Cell(if row[j].masked then fillvalue else row[j].value, false));
    }
  }

  /** Well-formed array values in every field, as the readers produce. */
  predicate FieldsValid(s: DsdState)
  {
    forall k :: k in s.fields ==> s.fields[k].data.data.Valid()
  }

  // ---------------------------------------------------------------------
  // Lines of the new file

  /** The comment lines of a new file, up to the first exception: eleven
      '#' lines when the location, the altitude and a first timestamp are
      there, and a shorter run of '#' lines when a lookup fails in the
      middle of the block. */
  function CommentLines(fmt: Format, s: DsdState, field: string): (r: Rows)
    ensures r.1.None? <==> (|s.time| > 0 && "Latitude_value" in s.info && "Longitude_value" in s.info
                            && "Altitude_value" in s.info)
    ensures r.1.None? ==> |r.0| == 11
    ensures r.1.Some? ==> 4 <= |r.0| < 11
    ensures forall k :: 0 <= k < |r.0| ==> IsComment(r.0[k])
  {
    var first := ["# Disdrometer timeseries data file\n", "# Comment lines are preceded by \"#\"\n",
                  "# Description: \n", "# Time series of " + field + "\n"];
    if "Latitude_value" !in s.info then (first, Some(MissingKey("Latitude_value")))
    else if "Longitude_value" !in s.info then (first, Some(MissingKey("Longitude_value")))
    else
      var located := first + ["# Location [lat  lon]: " + s.info["Latitude_value"] + "  "
                              + s.info["Longitude_value"] + "\n"];
      if "Altitude_value" !in s.info then (located, Some(MissingKey("Altitude_value")))
      else
        var described := located + ["# Elevation: " + s.info["Altitude_value"] + "m MSL\n",
                                    "# Elevation angle: 90\n",
                                    "# Scattering Frequency: " + FreqText(fmt, s) + " GHz\n",
                                    "# Data: " + field + "\n"];
        if |s.time| == 0 then (described, Some(IndexOutOfRange))
        else (described + ["# Start: " + fmt.startStamp(s.time[0]) + "\n", "#\n"], None)
  }

  const DateColumn: string := "date"
  const PrecipColumn: string := "Precip Code"
  const TempColumn: string := "Scattering Temp [deg C]"

  /** The header row of a new file; a csv reader gives back its four
      column names, whatever the field name holds. */
  function HeaderLine(field: string): (h: string)
    ensures ParseRecord(h) == Some([DateColumn, PrecipColumn, field, TempColumn])
  {
    RecordRoundTrip([DateColumn, PrecipColumn, field, TempColumn]);
    Record([DateColumn, PrecipColumn, field, TempColumn])
  }

  /** The four cells of row i: the timestamp, the precipitation code, the
      filled value and the scattering temperature. Row i exists when the
      precipitation codes and the values reach index i. */
  function RowCells(fmt: Format, s: DsdState, data: NcData, i: nat): (r: Result<seq<string>>)
    requires i < |s.time|
    ensures r.Ok? <==> "Precip_Code" in s.fields && i < Length(s.fields["Precip_Code"].data.data) && i < Length(data)
    ensures "Precip_Code" !in s.fields ==> r == Err(MissingKey("Precip_Code"))
    ensures r.Ok? ==> r.value == [fmt.datetime(s.time[i]), ElementText(fmt, s.fields["Precip_Code"].data.data, i),
                                  ElementText(fmt, data, i), fmt.cell(s.scatteringTemp)]
  {
    if "Precip_Code" !in s.fields then Err(MissingKey("Precip_Code"))
    else match ElementAt(fmt, s.fields["Precip_Code"].data.data, i)
      case Err(e) => Err(e)
      case Ok(code) =>
        match ElementAt(fmt, data, i)
        case Err(e) => Err(e)
        case Ok(value) => Ok([fmt.datetime(s.time[i]), code, value, fmt.cell(s.scatteringTemp)])
  }

  function RowLine(fmt: Format, s: DsdState, data: NcData, i: nat): Result<string>
    requires i < |s.time|
  {
    match RowCells(fmt, s, data, i)
    case Err(e) => Err(e)
    case Ok(cells) => Ok(Record(cells))
  }

  /** What each writerow of the loop produces, one entry per timestamp. */
  function RowResults(fmt: Format, s: DsdState, data: NcData): (r: seq<Result<string>>)
    ensures |r| == |s.time| && forall i :: 0 <= i < |s.time| ==> r[i] == RowLine(fmt, s, data, i)
  {
    seq(|s.time|, i requires 0 <= i < |s.time| => RowLine(fmt, s, data, i))
  }

  /** The rows after the loop, up to the first exception. */
  function DataRows(fmt: Format, s: DsdState, data: NcData): Rows
  {
    Collect(RowResults(fmt, s, data), |s.time|)
  }

  /** The loop writes one row per timestamp exactly when the precipitation
      codes and the values cover every timestamp, and row i is then the
      record of (time[i], Precip_Code[i], data[i], scattering_temp). */
  lemma DataRowsComplete(fmt: Format, s: DsdState, data: NcData)
    ensures DataRows(fmt, s, data).1.None? <==>
      (|s.time| == 0 || ("Precip_Code" in s.fields && |s.time| <= Length(s.fields["Precip_Code"].data.data)
                         && |s.time| <= Length(data)))
    ensures DataRows(fmt, s, data).1.None? ==>
      var rows := DataRows(fmt, s, data).0;
      |rows| == |s.time| && forall i :: 0 <= i < |s.time| ==> RowCells(fmt, s, data, i).Ok? && rows[i] == Record(RowCells(fmt, s, data, i).value)
  {
    var results := RowResults(fmt, s, data);
    var n := |s.time|;
    CollectComplete(results, n);
    if n > 0 {
      assert RowCells(fmt, s, data, n - 1).Ok? == results[n - 1].Ok?;
      if "Precip_Code" in s.fields && n <= Length(s.fields["Precip_Code"].data.data) && n <= Length(data) {
        forall i | 0 <= i < n
          ensures results[i].Ok?
        {
          assert RowCells(fmt, s, data, i).Ok?;
        }
      }
    }
  }

  // ---------------------------------------------------------------------
  // The whole export

  /** write_csv_file(dsd, date, var, fillvalue): the file at the write path
      after the call and the exception it ends with. bareNameExists is
      whether glob.glob(fname) finds the bare file name (relative to the
      working directory); existing is the file at basepath+datapath+fname
      before the call. */
  function DailyExport(fmt: Format, s: DsdState, date: string, dataType: string, fillvalue: real,
                       bareNameExists: bool, existing: Option<seq<string>>): (out: Outcome)
    requires FieldsValid(s)
    // the call never removes a file
    ensures out.file.None? ==> existing.None?
    // it ends normally only for a known data type of a masked-array field
    ensures out.error.None? ==>
      dataType in PyradNames && dataType in s.fields && s.fields[dataType].data.MaskedArray?
    // appending keeps the file at the write path as a prefix
    ensures bareNameExists && existing.Some? ==> out.file.Some? && existing.value <= out.file.value
    // a new file starts with the comment block, whatever was at the write path
    ensures !bareNameExists && out.file != existing ==>
      out.file.Some? && |out.file.value| >= 4 && IsComment(out.file.value[0])
  {
    match FileName(fmt, s, date, dataType)
    case Err(e) => Outcome(existing, Some(e))
    case Ok(_) =>
      if dataType !in s.fields then Outcome(existing, Some(MissingKey(dataType)))
      else match FilledData(s.fields[dataType], fillvalue)
        case Err(e) => Outcome(existing, Some(e))
        case Ok(data) =>
          var field := FieldNamePyrad(dataType).value;
          var rows := DataRows(fmt, s, data);
          if !bareNameExists then
            var comments := CommentLines(fmt, s, field);
            if comments.1.Some? then Outcome(Some(comments.0), comments.1)
            else Outcome(Some(comments.0 + [HeaderLine(field)] + rows.0), rows.1)
          else
            var previous := if existing.Some? then existing.value else [];
            Outcome(Some(previous + rows.0), rows.1)
  }

  /** The dsd's fields after the call: only the exported variable's fill
      value changes, and only once the file name has been built. */
  function FieldsAfter(fmt: Format, s: DsdState, date: string, dataType: string, fillvalue: real): (f: map<string, VarDict>)
    ensures f.Keys == s.fields.Keys
    ensures forall k :: k in s.fields && k != dataType ==> f[k] == s.fields[k]
    ensures dataType in s.fields ==>
      f[dataType] == (if FileName(fmt, s, date, dataType).Ok? then WithFill(s.fields[dataType], fillvalue)
                      else s.fields[dataType])
  {
    if FileName(fmt, s, date, dataType).Ok? && dataType in s.fields then s.fields[dataType := WithFill(s.fields[dataType], fillvalue)]
    else s.fields
  }

  /** An unknown data type fails while the file name is built: no directory
      is made, no file is touched, and the dsd is not changed. */
  lemma UnknownTypeFailsFirst(fmt: Format, s: DsdState, date: string, dataType: string, fillvalue: real,
                              bareNameExists: bool, existing: Option<seq<string>>)
    requires FieldsValid(s) && "StationName" in s.info && dataType !in PyradNames
    ensures DailyExport(fmt, s, date, dataType, fillvalue, bareNameExists, existing)
         == Outcome(existing, Some(UnknownDataType(dataType)))
    ensures FieldsAfter(fmt, s, date, dataType, fillvalue) == s.fields
    ensures CreatedDirectory(fmt, s, date, dataType).None?
  {
  }

  /** A successful export to a new file: eleven comment lines, the column
      header, then one row per timestamp. */
  lemma NewFileLayout(fmt: Format, s: DsdState, date: string, dataType: string, fillvalue: real,
                      existing: Option<seq<string>>)
    requires FieldsValid(s)
    requires DailyExport(fmt, s, date, dataType, fillvalue, false, existing).error.None?
    ensures var out := DailyExport(fmt, s, date, dataType, fillvalue, false, existing);
      var field := FieldNamePyrad(dataType).value;
      var data := FilledData(s.fields[dataType], fillvalue).value;
      && dataType in PyradNames && dataType in s.fields
      && out.file.Some? && |out.file.value| == 12 + |s.time|
      && (forall k :: 0 <= k < 11 ==> IsComment(out.file.value[k]))
      && out.file.value[11] == HeaderLine(field)
      && forall i :: 0 <= i < |s.time| ==>
           RowCells(fmt, s, data, i).Ok? && out.file.value[12 + i] == Record(RowCells(fmt, s, data, i).value)
  {
    var data := FilledData(s.fields[dataType], fillvalue).value;
    DataRowsComplete(fmt, s, data);
  }

  /** Appending keeps what the file held and adds exactly the rows, with no
      comment block and no column header. */
  lemma AppendLayout(fmt: Format, s: DsdState, date: string, dataType: string, fillvalue: real,
                     existing: Option<seq<string>>)
    requires FieldsValid(s)
    ensures var out := DailyExport(fmt, s, date, dataType, fillvalue, true, existing);
      var previous := if existing.Some? then existing.value else [];
      && (out.file.Some? ==> |out.file.value| >= |previous| && out.file.value[..|previous|] == previous)
      && (out.error.None? ==>
            var data := FilledData(s.fields[dataType], fillvalue).value;
            && out.file == Some(previous + DataRows(fmt, s, data).0)
            && |out.file.value| == |previous| + |s.time|
            && forall i :: 0 <= i < |s.time| ==>
                 RowCells(fmt, s, data, i).Ok? && out.file.value[|previous| + i] == Record(RowCells(fmt, s, data, i).value))
  {
    var out := DailyExport(fmt, s, date, dataType, fillvalue, true, existing);
    if out.error.None? {
      var data := FilledData(s.fields[dataType], fillvalue).value;
      DataRowsComplete(fmt, s, data);
    }
  }

  /** Every exported row reads back as its four cells, and the temperature
      cell is the same on every row. */
  lemma RowsReadBack(fmt: Format, s: DsdState, data: NcData, i: nat)
    requires i < |s.time| && RowCells(fmt, s, data, i).Ok?
    ensures ParseRecord(Record(RowCells(fmt, s, data, i).value)) == Some(RowCells(fmt, s, data, i).value)
    ensures RowCells(fmt, s, data, i).value[3] == fmt.cell(s.scatteringTemp)
  {
    RecordRoundTrip(RowCells(fmt, s, data, i).value);
  }

  // ---------------------------------------------------------------------
  // Existence tested where the file is written

  /** The export with the existence test made on the path actually written.
      A file already at that path is always appended to, so whatever the
      call ends with, the earlier file is a prefix of the file after. */
  function DailyExportAtWritePath(fmt: Format, s: DsdState, date: string, dataType: string, fillvalue: real,
                                  existing: Option<seq<string>>): (out: Outcome)
    requires FieldsValid(s)
    ensures existing.Some? ==> out.file.Some? && existing.value <= out.file.value
  {
    DailyExport(fmt, s, date, dataType, fillvalue, existing.Some?, existing)
  }

  /** As written, the test looks at the bare name: when the working
      directory has no such file, the day file at the write path is
      truncated whatever it held, and a day file holding more lines than
      this call writes loses its earlier rows. */
  lemma BareNameTestLosesRows(fmt: Format, s: DsdState, date: string, dataType: string, fillvalue: real,
                              existing: seq<string>)
    requires FieldsValid(s) && |existing| > 12 + |s.time|
    requires DailyExport(fmt, s, date, dataType, fillvalue, false, Some(existing)).error.None?
    ensures var out := DailyExport(fmt, s, date, dataType, fillvalue, false, Some(existing));
      && out == DailyExport(fmt, s, date, dataType, fillvalue, false, None)
      && out.file.Some? && |out.file.value| < |existing|
  {
    NewFileLayout(fmt, s, date, dataType, fillvalue, Some(existing));
  }

  // ---------------------------------------------------------------------
  // The imperative exporter

  /** The row loop: for i in range(len(dsd.time['data'])), one writerow per
      timestamp, stopping at the first exception. */
  method WriteRows(fmt: Format, s: DsdState, data: NcData) returns (rows: seq<string>, error: Option<ExportError>)
    ensures (rows, error) == DataRows(fmt, s, data)
    ensures error.None? ==> |rows| == |s.time|
  {
    ghost var results := RowResults(fmt, s, data);
    rows, error := [], None;
    var i := 0;
    while i < |s.time|
      invariant 0 <= i <= |s.time|
      invariant (rows, error) == Collect(results, i) && error.None?
      invariant |rows| == i
    {
      var line := RowLine(fmt, s, data, i);
      if line.Err? {
        error := Some(line.error);
        CollectStops(results, i + 1, |s.time|);
        return;
      }
      rows := rows + [line.value];
      i := i + 1;
    }
  }

  /** write_csv_file(dsd, date, var, fillvalue), fillvalue defaulting to
      -9999 as in the source. The fill value of the
      exported field is changed in place, as np.ma.set_fill_value does. */
  method WriteCsvFile(fmt: Format, dsd: DropSizeDistribution, date: string, dataType: string,
                      bareNameExists: bool, existing: Option<seq<string>>, fillvalue: real := DefaultFillValue)
    returns (out: Outcome)
    requires FieldsValid(dsd.State())
    modifies dsd
    ensures out == DailyExport(fmt, old(dsd.State()), date, dataType, fillvalue, bareNameExists, existing)
    ensures dsd.State() == old(dsd.State()).(fields := FieldsAfter(fmt, old(dsd.State()), date, dataType, fillvalue))
  {
    var s := dsd.State();
    var fname := FileName(fmt, s, date, dataType);
    if fname.Err? {
      return Outcome(existing, Some(fname.error));
    }
    if dataType !in dsd.fields {
      return Outcome(existing, Some(MissingKey(dataType)));
    }
    dsd.fields := dsd.fields[dataType := WithFill(dsd.fields[dataType], fillvalue)];
    var filled := FilledData(s.fields[dataType], fillvalue);
    if filled.Err? {
      return Outcome(existing, Some(filled.error));
    }
    var field := FieldNamePyrad(dataType).value;
    var file: seq<string>;
    if !bareNameExists {
      var comments := CommentLines(fmt, s, field);
      if comments.1.Some? {
        return Outcome(Some(comments.0), comments.1);
      }
      file := comments.0 + [HeaderLine(field)];
    } else {
      file := if existing.Some? then existing.value else [];
    }
    var rows, error := WriteRows(fmt, s, filled.value);
    out := Outcome(Some(file + rows), error);
  }
}
