/** pydsd/io/CSV_writer.py: the time-series export of one variable to a
    CSV file whose name the caller gives. A new file gets a comment block
    with the field's fill value and a column header; appending writes, for
    each timestamp, the row of the variable's two-dimensional data as a
    Python list. */
module NamedCsvWriter {
  import opened Common
  import opened Csv
  import opened ExportCommon
  import opened Dsd
  import DailyCsvWriter

  // ---------------------------------------------------------------------
  // Field names

  /** get_fieldname_pyrad of this exporter: five radar variables. It
      accepts exactly the five names of the table PyradNames, with the
      table's images, and raises ValueError naming anything else. */
  function FieldNamePyrad(dataType: string): (r: Result<string>)
    ensures r.Ok? <==> dataType in PyradNames
    ensures r.Ok? ==> r.value == PyradNames[dataType]
    ensures r.Err? ==> r == Err(UnknownDataType(dataType))
  {
    if dataType == "Zh" then Ok("dBZ")
    else if dataType == "Zv" then Ok("dBZv")
    else if dataType == "Zdr" then Ok("ZDR")
    else if dataType == "cross_correlation_ratio_hv" then Ok("RhoHV")
    else if dataType == "PhiDP" then Ok("differential_phase")
    else Err(UnknownDataType(dataType))
  }

  const PyradNames: map<string, string> := map[
    "Zh" := "dBZ", "Zv" := "dBZv", "Zdr" := "ZDR", "cross_correlation_ratio_hv" := "RhoHV",
    "PhiDP" := "differential_phase"]

  /** Where both exporters know a data type they give it the same Pyrad
      name; the two share exactly Zh, Zv, Zdr and cross_correlation_ratio_hv,
      and only this one knows PhiDP. */
  lemma AgreesWithDailyExporter(dataType: string)
    ensures FieldNamePyrad(dataType).Ok? && DailyCsvWriter.FieldNamePyrad(dataType).Ok? ==>
      FieldNamePyrad(dataType).value == DailyCsvWriter.FieldNamePyrad(dataType).value
    ensures (FieldNamePyrad(dataType).Ok? && DailyCsvWriter.FieldNamePyrad(dataType).Ok?) <==>
      dataType in {"Zh", "Zv", "Zdr", "cross_correlation_ratio_hv"}
    ensures FieldNamePyrad(dataType).Ok? && DailyCsvWriter.FieldNamePyrad(dataType).Err? <==> dataType == "PhiDP"
  {
  }

  // ---------------------------------------------------------------------
  // A new file

  /** The comment lines of a new file, up to the first exception. The
      fourth names the data type as given; the sixth its Pyrad name, so an
      unknown data type is noticed only after five lines are written. The
      block is nine '#' lines, the seventh the fill value, when it is
      complete. */
  function CommentLines(fmt: Format, s: DsdState, dataType: string): (r: Rows)
    ensures forall k :: 0 <= k < |r.0| ==> IsComment(r.0[k])
    ensures r.1.None? <==> ("Longitude_value" in s.info && "Latitude_value" in s.info && "Altitude_value" in s.info
                            && dataType in PyradNames && dataType in s.fields
                            && s.fields[dataType].fillValue.Some? && |s.time| > 0)
    ensures r.1.None? ==> |r.0| == 9 && r.0[6] == "# Fill Value: " + fmt.str(s.fields[dataType].fillValue.value) + "\n"
    ensures r.1.Some? ==> 4 <= |r.0| < 9
  {
    var first := ["# Disdrometer timeseries data file\n", "# Comment lines are preceded by \"#\"\n",
                  "# Description: \n", "# Time series of " + dataType + "\n"];
    if "Longitude_value" !in s.info then (first, Some(MissingKey("Longitude_value")))
    else if "Latitude_value" !in s.info then (first, Some(MissingKey("Latitude_value")))
    else if "Altitude_value" !in s.info then (first, Some(MissingKey("Altitude_value")))
    else
      var located := first + ["# Location [lon, lat, alt]: " + s.info["Longitude_value"] + "  "
                              + s.info["Latitude_value"] + "  " + s.info["Altitude_value"] + "\n"];
      match FieldNamePyrad(dataType)
      case Err(e) => (located, Some(e))
      case Ok(field) =>
        var named := located + ["# Data: " + field + "\n"];
        if dataType !in s.fields then (named, Some(MissingKey(dataType)))
        else if s.fields[dataType].fillValue.None? then (named, Some(MissingKey("_FillValue")))
        else
          var filled := named + ["# Fill Value: " + fmt.str(s.fields[dataType].fillValue.value) + "\n"];
          if |s.time| == 0 then (filled, Some(IndexOutOfRange))
          else (filled + ["# Start: " + fmt.startStamp(s.time[0]) + "\n", "#\n"], None)
  }

  const DateColumn: string := "date"
  const PrecipColumn: string := "Precip_Code"

  /** The header row of a new file; a csv reader gives back its three
      column names, whatever the field name holds. */
  function HeaderLine(field: string): (h: string)
    ensures ParseRecord(h) == Some([DateColumn, PrecipColumn, field])
  {
    RecordRoundTrip([DateColumn, PrecipColumn, field]);
    Record([DateColumn, PrecipColumn, field])
  }

  /** dsd.fields['Precip_Code']['data'][i], with its exceptions. */
  function PrecipCell(fmt: Format, s: DsdState, i: nat): (r: Result<string>)
    ensures r.Ok? <==> PrecipColumn in s.fields && i < Length(s.fields[PrecipColumn].data.data)
    ensures PrecipColumn !in s.fields ==> r == Err(MissingKey(PrecipColumn))
    ensures PrecipColumn in s.fields && r.Err? ==> r.error == IndexOutOfRange
    ensures r.Ok? ==> r.value == ElementText(fmt, s.fields[PrecipColumn].data.data, i)
  {
    if PrecipColumn !in s.fields then Err(MissingKey(PrecipColumn))
    else ElementAt(fmt, s.fields[PrecipColumn].data.data, i)
  }

  /** The three cells of row i of a new file: the value cell is the
      element (or row) of the variable's data, masked elements as '--'. */
  function NewRowCells(fmt: Format, s: DsdState, dataType: string, i: nat): (r: Result<seq<string>>)
    requires i < |s.time| && dataType in s.fields
    ensures r.Ok? <==> PrecipCell(fmt, s, i).Ok? && i < Length(s.fields[dataType].data.data)
    ensures r.Ok? ==> r.value == [fmt.datetime(s.time[i]), PrecipCell(fmt, s, i).value,
                                  ElementText(fmt, s.fields[dataType].data.data, i)]
  {
    match PrecipCell(fmt, s, i)
    case Err(e) => Err(e)
    case Ok(code) =>
      match ElementAt(fmt, s.fields[dataType].data.data, i)
      case Err(e) => Err(e)
      case Ok(value) => Ok([fmt.datetime(s.time[i]), code, value])
  }

  // ---------------------------------------------------------------------
  // Appending

  /** str() of a Python list, as the csv module writes a list value: the
      items between brackets, separated by ', '. */
  function ListText(items: seq<string>): (t: string)
    ensures |t| >= 2 && t[0] == '[' && t[|t| - 1] == ']'
    ensures items == [] ==> t == "[]"
    ensures |items| == 1 ==> t == "[" + items[0] + "]"
    ensures |items| >= 2 ==> |t| > 3 + |items[0]| && t[1..1 + |items[0]|] == items[0]
                             && t[1 + |items[0]|..3 + |items[0]|] == ", "
  {
    "[" + CommaSpaced(items) + "]"
  }

  /** ', '.join(items). */
  function CommaSpaced(items: seq<string>): (t: string)
    ensures items == [] ==> t == ""
    ensures items != [] ==> |items[0]| <= |t| && t[..|items[0]|] == items[0]
    ensures |items| == 1 ==> t == items[0]
    ensures |items| >= 2 ==> |items[0]| + 2 <= |t| && t[|items[0]|..|items[0]| + 2] == ", "
  {
    if items == [] then "" else if |items| == 1 then items[0] else items[0] + ", " + CommaSpaced(items[1..])
  }

  /** The position of the first ', ' in s; |s| when there is none. */
  function SeparatorAt(s: string): (k: nat)
    ensures k == |s| || (k + 1 < |s| && s[k] == ',' && s[k + 1] == ' ')
    decreases |s|
  {
    if |s| < 2 then |s|
    else if s[0] == ',' && s[1] == ' ' then 0
    else 1 + SeparatorAt(s[1..])
  }

  /** s.split(', '): the pieces of s between the separators. */
  function SplitItems(s: string): (pieces: seq<string>)
    ensures |pieces| >= 1
    decreases |s|
  {
    var k := SeparatorAt(s);
    if k == |s| then [s] else [s[..k]] + SplitItems(s[k + 2..])
  }

  /** No separator begins inside a comma-free prefix. */
  lemma {:induction false} SeparatorAfterPrefix(a: string, r: string)
    requires ',' !in a
    ensures SeparatorAt(a + r) == |a| + SeparatorAt(r)
  {
    if a == [] {
      assert a + r == r;
    } else if |a + r| >= 2 {
      assert a[0] in a;
      assert (a + r)[1..] == a[1..] + r;
      SeparatorAfterPrefix(a[1..], r);
    }
  }

  /** A comma-free piece is split off at the ', ' that follows it, and is
      not split at all when nothing follows. */
  lemma {:induction false} SplitAfterPiece(a: string, rest: string)
    requires ',' !in a
    ensures SplitItems(a + ", " + rest) == [a] + SplitItems(rest)
    ensures SplitItems(a) == [a]
  {
    var t := a + ", " + rest;
    assert t == a + (", " + rest);
    SeparatorAfterPrefix(a, ", " + rest);
    SeparatorAfterPrefix(a, "");
    assert a + "" == a;
    assert t[..|a|] == a && t[|a| + 2..] == rest;
  }

  /** Items without a comma are given back by splitting their join at ', '. */
  lemma {:induction false} CommaSpacedSplits(items: seq<string>)
    requires items != []
    requires forall i :: 0 <= i < |items| ==> ',' !in items[i]
    ensures SplitItems(CommaSpaced(items)) == items
  {
    if |items| == 1 {
      SplitAfterPiece(items[0], "");
    } else {
      var rest := CommaSpaced(items[1..]);
      CommaSpacedSplits(items[1..]);
      calc {
        SplitItems(CommaSpaced(items));
        SplitItems(items[0] + ", " + rest);
        { SplitAfterPiece(items[0], rest); }
        [items[0]] + SplitItems(rest);
        [items[0]] + items[1..];
        items;
      }
    }
  }

  /** The text of a list of comma-free items splits, between its brackets,
      back into the items. */
  lemma {:induction false} ListTextRoundTrip(items: seq<string>)
    requires items != []
    requires forall i :: 0 <= i < |items| ==> ',' !in items[i]
    ensures var t := ListText(items); SplitItems(t[1..|t| - 1]) == items
  {
    var t := ListText(items);
    assert t[1..|t| - 1] == CommaSpaced(items);
    CommaSpacedSplits(items);
  }

  /** [data[i, j] for j in range(len(data[i]))]: the reprs of row i of a
      two-dimensional array. A one-dimensional array has scalar elements,
      whose len() is a TypeError. */
  function ListCell(fmt: Format, d: NcData, i: nat): (r: Result<string>)
    ensures r.Ok? <==> d.Matrix? && i < |d.grid.cells|
    ensures r.Ok? ==> r.value == ListText(RowItems(fmt, d.grid.cells[i]))
    ensures d.Vector? && i < |d.items| ==> r == Err(NotSized)
    ensures i >= Length(d) ==> r == Err(IndexOutOfRange)
  {
    if i >= Length(d) then Err(IndexOutOfRange)
    else match d
      case Vector(_) => Err(NotSized)
      case Matrix(g) => Ok(ListText(RowItems(fmt, g.cells[i])))
  }

  /** The reprs of the elements of one row, masked elements as 'masked'. */
  function RowItems(fmt: Format, row: seq<Cell>): (items: seq<string>)
    ensures |items| == |row|
    ensures forall j :: 0 <= j < |row| ==> items[j] == ItemText(fmt, row[j])
  {
    seq(|row|, j requires 0 <= j < |row| => ItemText(fmt, row[j]))
  }

  /** The three cells of an appended row i. */
  function AppendRowCells(fmt: Format, s: DsdState, dataType: string, i: nat): (r: Result<seq<string>>)
    requires i < |s.time|
    ensures r.Ok? <==> PrecipCell(fmt, s, i).Ok? && dataType in s.fields
                       && ListCell(fmt, s.fields[dataType].data.data, i).Ok?
    ensures r.Ok? ==> r.value == [fmt.datetime(s.time[i]), PrecipCell(fmt, s, i).value,
                                  ListCell(fmt, s.fields[dataType].data.data, i).value]
  {
    match PrecipCell(fmt, s, i)
    case Err(e) => Err(e)
    case Ok(code) =>
      if dataType !in s.fields then Err(MissingKey(dataType))
      else match ListCell(fmt, s.fields[dataType].data.data, i)
        case Err(e) => Err(e)
        case Ok(value) => Ok([fmt.datetime(s.time[i]), code, value])
  }

  /** writerow of a row's cells. */
  function AsLine(r: Result<seq<string>>): Result<string>
    requires r.Ok? ==> |r.value| > 0
  {
    match r
    case Err(e) => Err(e)
    case Ok(cells) => Ok(Record(cells))
  }

  function NewRows(fmt: Format, s: DsdState, dataType: string): (r: seq<Result<string>>)
    requires dataType in s.fields
    ensures |r| == |s.time| && forall i :: 0 <= i < |s.time| ==> r[i] == AsLine(NewRowCells(fmt, s, dataType, i))
  {
    seq(|s.time|, i requires 0 <= i < |s.time| => AsLine(NewRowCells(fmt, s, dataType, i)))
  }

  function AppendRows(fmt: Format, s: DsdState, dataType: string): (r: seq<Result<string>>)
    ensures |r| == |s.time| && forall i :: 0 <= i < |s.time| ==> r[i] == AsLine(AppendRowCells(fmt, s, dataType, i))
  {
    seq(|s.time|, i requires 0 <= i < |s.time| => AsLine(AppendRowCells(fmt, s, dataType, i)))
  }

  // ---------------------------------------------------------------------
  // The whole export

  /** write_csv_file(dsd, fname, var): existing is the file named fname
      before the call, None when glob finds nothing there. */
  function NamedExport(fmt: Format, s: DsdState, dataType: string, existing: Option<seq<string>>): (out: Outcome)
    // there is always a file afterwards: the one found, or the one created
    ensures out.file.Some?
    // it ends normally only for a known data type
    ensures out.error.None? ==> dataType in PyradNames
    // a file that exists is only appended to
    ensures existing.Some? ==> existing.value <= out.file.value
    // a new file starts with the comment block
    ensures existing.None? ==> |out.file.value| >= 4 && IsComment(out.file.value[0])
  {
    if existing.None? then
      var comments := CommentLines(fmt, s, dataType);
      if comments.1.Some? then Outcome(Some(comments.0), comments.1)
      else
        var rows := Collect(NewRows(fmt, s, dataType), |s.time|);
        Outcome(Some(comments.0 + [HeaderLine(FieldNamePyrad(dataType).value)] + rows.0), rows.1)
    else match FieldNamePyrad(dataType)
      case Err(e) => Outcome(existing, Some(e))
      case Ok(_) =>
        var rows := Collect(AppendRows(fmt, s, dataType), |s.time|);
        Outcome(Some(existing.value + rows.0), rows.1)
  }

  /** A successful export to a new file: nine comment lines, one of them the
      fill value, the column header, then one row per timestamp whose value
      cell is data[i]. */
  lemma NewFileLayout(fmt: Format, s: DsdState, dataType: string)
    requires NamedExport(fmt, s, dataType, None).error.None?
    ensures var file := NamedExport(fmt, s, dataType, None).file;
      && dataType in PyradNames && dataType in s.fields && s.fields[dataType].fillValue.Some?
      && file.Some? && |file.value| == 10 + |s.time|
      && (forall k :: 0 <= k < 9 ==> IsComment(file.value[k]))
      && file.value[6] == "# Fill Value: " + fmt.str(s.fields[dataType].fillValue.value) + "\n"
      && file.value[9] == HeaderLine(PyradNames[dataType])
      && forall i :: 0 <= i < |s.time| ==>
           (&& NewRowCells(fmt, s, dataType, i).Ok?
            && file.value[10 + i] == Record(NewRowCells(fmt, s, dataType, i).value)
            && NewRowCells(fmt, s, dataType, i).value[2] == ElementText(fmt, s.fields[dataType].data.data, i))
  {
    var comments := CommentLines(fmt, s, dataType);
    var rows := Collect(NewRows(fmt, s, dataType), |s.time|);
    var header := HeaderLine(FieldNamePyrad(dataType).value);
    assert comments.1.None? && |comments.0| == 9;
    assert NamedExport(fmt, s, dataType, None).file == Some(comments.0 + [header] + rows.0);
    NewRowsComplete(fmt, s, dataType);
    BlockThenRows(comments.0, header, rows.0);
  }

  /** A file made of a block of lines, one line, and rows: where each part
      sits in it. */
  lemma BlockThenRows(block: seq<string>, line: string, rows: seq<string>)
    ensures var file := block + [line] + rows;
      && |file| == |block| + 1 + |rows|
      && (forall k :: 0 <= k < |block| ==> file[k] == block[k])
      && file[|block|] == line
      && forall i :: 0 <= i < |rows| ==> file[|block| + 1 + i] == rows[i]
  {
  }

  /** When the row loop of a new file ends normally, row i is the record of
      row i's cells, and those cells exist. */
  lemma NewRowsComplete(fmt: Format, s: DsdState, dataType: string)
    requires dataType in s.fields
    requires Collect(NewRows(fmt, s, dataType), |s.time|).1.None?
    ensures var rows := Collect(NewRows(fmt, s, dataType), |s.time|).0;
      && |rows| == |s.time|
      && forall i :: 0 <= i < |s.time| ==>
           NewRowCells(fmt, s, dataType, i).Ok? && rows[i] == Record(NewRowCells(fmt, s, dataType, i).value)
  {
    var results := NewRows(fmt, s, dataType);
    CollectComplete(results, |s.time|);
    forall i | 0 <= i < |s.time|
      ensures NewRowCells(fmt, s, dataType, i).Ok?
    {
      assert results[i].Ok?;
    }
  }

  /** A field without '_FillValue' makes a new file stop after six comment
      lines, before the column header. */
  lemma MissingFillValueStops(fmt: Format, s: DsdState, dataType: string)
    requires "Longitude_value" in s.info && "Latitude_value" in s.info && "Altitude_value" in s.info
    requires dataType in PyradNames && dataType in s.fields && s.fields[dataType].fillValue.None?
    ensures var out := NamedExport(fmt, s, dataType, None);
      out.error == Some(MissingKey("_FillValue")) && out.file.Some? && |out.file.value| == 6
  {
  }

  /** Appending keeps the file as a prefix and adds exactly one row per
      timestamp when it succeeds, with no comment block and no header. */
  lemma AppendLayout(fmt: Format, s: DsdState, dataType: string, existing: seq<string>)
    ensures var out := NamedExport(fmt, s, dataType, Some(existing));
      && out.file.Some? && |out.file.value| >= |existing| && out.file.value[..|existing|] == existing
      && (out.error.None? ==>
            && |out.file.value| == |existing| + |s.time|
            && forall i :: 0 <= i < |s.time| ==>
                 && dataType in s.fields && s.fields[dataType].data.data.Matrix?
                 && AppendRowCells(fmt, s, dataType, i).Ok?
                 && out.file.value[|existing| + i] == Record(AppendRowCells(fmt, s, dataType, i).value)
                 && AppendRowCells(fmt, s, dataType, i).value[2]
                      == ListText(RowItems(fmt, s.fields[dataType].data.data.grid.cells[i])))
  {
    var out := NamedExport(fmt, s, dataType, Some(existing));
    if out.error.None? {
      var results := AppendRows(fmt, s, dataType);
      CollectComplete(results, |s.time|);
      forall i | 0 <= i < |s.time|
        ensures AppendRowCells(fmt, s, dataType, i).Ok?
      {
        assert results[i].Ok?;
      }
    }
  }

  /** Appending requires two-dimensional data: with a one-dimensional field
      and at least one timestamp the first row fails with a TypeError once
      the precipitation code is read, and nothing is added. */
  lemma AppendOneDimensionalFails(fmt: Format, s: DsdState, dataType: string, existing: seq<string>)
    requires dataType in PyradNames && |s.time| > 0 && PrecipCell(fmt, s, 0).Ok?
    requires dataType in s.fields && s.fields[dataType].data.data.Vector? && |s.fields[dataType].data.data.items| > 0
    ensures NamedExport(fmt, s, dataType, Some(existing)) == Outcome(Some(existing), Some(NotSized))
  {
    var results := AppendRows(fmt, s, dataType);
    CollectFirstError(results, |s.time|, 0);
    assert existing + [] == existing;
  }

  /** The list cell of a row of two or more elements holds ', ', so the csv
      module quotes it, and it reads back unchanged. */
  lemma ListCellQuoted(items: seq<string>)
    requires |items| >= 2
    ensures NeedsQuotes(ListText(items))
    ensures var cells := ["t", "c", ListText(items)];
      ParseRecord(Record(cells)) == Some(cells)
  {
    var t := ListText(items);
    assert t == "[" + items[0] + ", " + CommaSpaced(items[1..]) + "]";
    assert t[1 + |items[0]|] == ',';
    RecordRoundTrip(["t", "c", t]);
  }

  // ---------------------------------------------------------------------
  // The imperative exporter

  /** The row loop of either branch over precomputed row results. */
  method WriteRows(results: seq<Result<string>>) returns (rows: seq<string>, error: Option<ExportError>)
    ensures (rows, error) == Collect(results, |results|)
  {
    rows, error := [], None;
    var i := 0;
    while i < |results|
      invariant 0 <= i <= |results|
      invariant (rows, error) == Collect(results, i) && error.None?
    {
      if results[i].Err? {
        error := Some(results[i].error);
        CollectStops(results, i + 1, |results|);
        return;
      }
      rows := rows + [results[i].value];
      i := i + 1;
    }
  }

  /** write_csv_file(dsd, fname, var). It changes nothing in dsd. */
  method WriteCsvFile(fmt: Format, dsd: DropSizeDistribution, dataType: string, existing: Option<seq<string>>)
    returns (out: Outcome)
    ensures out == NamedExport(fmt, dsd.State(), dataType, existing)
  {
    var s := dsd.State();
    if existing.None? {
      var comments := CommentLines(fmt, s, dataType);
      if comments.1.Some? {
        return Outcome(Some(comments.0), comments.1);
      }
      var header := HeaderLine(FieldNamePyrad(dataType).value);
      var rows, error := WriteRows(NewRows(fmt, s, dataType));
      out := Outcome(Some(comments.0 + [header] + rows), error);
    } else {
      var field := FieldNamePyrad(dataType);
      if field.Err? {
        return Outcome(existing, Some(field.error));
      }
      var rows, error := WriteRows(AppendRows(fmt, s, dataType));
      out := Outcome(Some(existing.value + rows), error);
    }
  }
}
