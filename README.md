# Parsivel² readers and CSV exporters of PyDSD, modelled in Dafny

PyDSD turns optical-disdrometer spectra into drop-size-distribution (DSD)
time series. This project models the small, deterministic logic around that
engine:

- **Bin geometry of the OTT Parsivel² instrument.** Both netCDF readers
  hard-code 32 diameter-bin centers and spreads and derive 33 bin edges as
  `0` followed by `center + spread / 2` (`BinGeometry`). With the exact
  tables of pydsd the bins tile [0, 26] mm, each center at its bin's
  midpoint. The pydisdrometer copy truncates the first ten centers to three
  decimals. Its edges still increase strictly, and each edge gap is within
  0.0005 mm of the bin's spread. In exact decimal arithmetic only the first
  gap (0.1245 mm against 0.125) and the eleventh (0.2505 mm against 0.25)
  differ from the spread.
- **Reader normalisation after the netCDF read.** `PydsdParsivel2Reader`
  covers the pydsd reader. It builds a synthetic 30 s time axis from the
  first epoch sample. `Nd` is 10 raised to the raw `VolumetricDrops` values,
  transposed to time-major order, with masked cells filled with 0 and the
  unit relabelled `1/m^3 1/mm`. It also does the `_FillValue` bookkeeping of
  `RR`, `Zh`, `num_particles` and `terminal_velocity`.
  `PydisdrometerParsivel2Reader` covers the pydisdrometer reader, where
  `Nd` is masked wherever the concentration is below 1. Each reader is a
  class whose constructor runs the stages of `__init__` as methods that fill
  its fields, its `info` dict from the global attributes, and its bin tables.
- **The two CSV exporters.** `DailyCsvWriter` models pydsd/io/csv_writer.py
  and `NamedCsvWriter` models pydsd/io/CSV_writer.py. Each has its
  `get_fieldname_pyrad` lookup. Each export is a pure function from the
  DSD's attributes, an existence flag and the previous file content to the
  file after the call and the exception the call ends with. An imperative
  `WriteCsvFile` method with the source's row loop is proved equal to that
  function. A file is a sequence of lines: a comment line with its `\n`, or
  one csv record with its CRLF.
- **The csv module's default dialect** (`Csv`). It quotes a field holding a
  comma, a quote or a line break, doubles the quotes inside it and ends each
  record with CRLF, following rules 2, 6 and 7 of section 2 of RFC 4180. A
  parser is given beside it, and every written record is proved to read back
  as its cells.

The helpers of pydsd/io/common.py (`ncvar_to_dict`, `var_to_dict`,
`EPOCH_UNITS`) are not part of this model. `Common` writes out once what they
are taken to do: `ncvar_to_dict` returns the variable's masked data, its text
attributes and its `_FillValue` attribute when it has one. `var_to_dict`
returns a dict holding the data, `standard_name`, `long_name` and `units`.

Python's exceptions are values. A reader returns `Failed(error)` with the
`KeyError` or `IndexError` its `__init__` raises first. An export returns
the file as the exception left it: truncated and partly written, or only
appended to.

`np.power(10, ·)` is a function parameter `pow10`. The lemma about masking
assumes only that it is strictly increasing with `pow10(0) = 1`. The text
renderings that depend on float printing, `datetime` or numpy's array
printing are the fields of a `Format` parameter. Timestamps are integer epoch
seconds.

### What the code does at its edges

- The pydisdrometer reader masks a concentration when it is strictly below
  1 (`Nd<1`); a concentration of exactly 1 stays unmasked. The pydsd reader
  masks nothing itself: it fills masked `Nd` cells with 0.
- Neither reader checks its bin geometry. The tables are constants, so no
  read fails because of them; what the tables satisfy is proved about the
  constants.
- The pydsd reader builds its time axis from the first sample and the
  number of samples, 30 s apart; the other samples are not read.
- pydsd/io/CSV_writer.py looks up the Pyrad field name only at its sixth
  line. An unknown data type therefore raises the ValueError after five
  comment lines have been written to the new file. pydsd/io/csv_writer.py
  looks it up while building the file name, before anything is written.
- pydsd/io/CSV_writer.py writes data[i] as the value of a row of a new
  file. When it appends, it writes row i of a two-dimensional array as a
  Python list. Appending one-dimensional data raises a `TypeError`.
- `np.hstack((0, diameter + spread / 2))` with a masked `diameter` gives a
  masked array with nothing masked, so `bin_edges` holds a masked array in
  both readers.

## Model

| member | source | states |
|---|---|---|
| `BinGeometry.BinEdges` | pydsd/aux_readers/Parsivel2_netCDF_reader.py:108-111 | n bins give n+1 edges, the first is 0 and edge i+1 is center i plus half spread i |
| `BinGeometry.ContiguousEdges` | pydsd/aux_readers/Parsivel2_netCDF_reader.py:110 | for contiguous bins each edge gap equals the bin's spread and each center is the midpoint of its two edges |
| `BinGeometry.ContiguousEdgeIsSpreadSum` | pydsd/aux_readers/Parsivel2_netCDF_reader.py:110 | for contiguous bins edge k is the total spread of the first k bins, so the bins tile [0, total spread] |
| `BinGeometry.ContiguousEdgesIncreasing` | pydsd/aux_readers/Parsivel2_netCDF_reader.py:110 | contiguous bins of positive spread have strictly increasing edges |
| `BinGeometry.BinEdgesDict` | pydsd/aux_readers/Parsivel2_netCDF_reader.py:108-111 | the bin_edges dict of both readers holds the edges of the given tables as a masked array with nothing masked and the default fill value, standard name bin_edges, unit mm, and no '_FillValue' |
| `BinGeometry.SpreadDict` | pydsd/aux_readers/Parsivel2_netCDF_reader.py:112-114 | the spread dict holds the unmasked spread table, standard name spread, unit mm, and no '_FillValue' |
| `BinGeometry.DiameterDict` | pydsd/aux_readers/Parsivel2_netCDF_reader.py:115-117 | the diameter dict holds the unmasked center table, standard name diameter, unit mm, and no '_FillValue' |
| `BinGeometry.StepsIncreasing` | pydsd/aux_readers/Parsivel2_netCDF_reader.py:110 | a sequence that increases from each element to the next is strictly increasing overall |
| `PydsdParsivel2Reader.TablesContiguous` | pydsd/aux_readers/Parsivel2_netCDF_reader.py:95-102 | the diameter and spread tables have 32 entries each, all spreads are positive, and each bin starts where the previous one ends |
| `PydsdParsivel2Reader.BinEdgesTileZeroToTwentySix` | pydsd/aux_readers/Parsivel2_netCDF_reader.py:95-111 | the 33 edges run from 0 to 26 mm and increase strictly; each gap is the bin's spread and each center is its bin's midpoint |
| `PydsdParsivel2Reader.DatetimeFromEpoch` | pydsd/aux_readers/Parsivel2_netCDF_reader.py:122-126 | one timestamp per sample, timestamp i is sample 0 plus 30·i seconds; an empty input is the IndexError |
| `PydsdParsivel2Reader.DatetimeFromEpochIncreasing` | pydsd/aux_readers/Parsivel2_netCDF_reader.py:125 | the synthetic time axis is strictly increasing, whatever the samples were |
| `PydsdParsivel2Reader.DatetimeFromEpochReadsFirstSample` | pydsd/aux_readers/Parsivel2_netCDF_reader.py:124-125 | two inputs of equal length with the same first sample give the same axis |
| `PydsdParsivel2Reader.TimeField` | pydsd/aux_readers/Parsivel2_netCDF_reader.py:59-62 | the time dict has one entry per sample, starting at the first sample and 30 s apart, units "Datetime objects", and no '_FillValue' |
| `PydsdParsivel2Reader.NdField` | pydsd/aux_readers/Parsivel2_netCDF_reader.py:64-69 | Nd is time-major, out[t][b] is pow10(raw[b][t]) for an unmasked raw cell and 0 for a masked one, nothing stays masked, unit "1/m^3 1/mm", no '_FillValue' |
| `PydsdParsivel2Reader.NetCdfFilledField` | pydsd/aux_readers/Parsivel2_netCDF_reader.py:71-91 | RR, num_particles and terminal_velocity keep their values (terminal_velocity transposed) with the netCDF '_FillValue' as masked-array fill value and the key deleted |
| `PydsdParsivel2Reader.ReflectivityField` | pydsd/aux_readers/Parsivel2_netCDF_reader.py:76-77 | Zh keeps its data, mask and attributes, with '_FillValue' deleted |
| `PydsdParsivel2Reader.VariableError` | pydsd/aux_readers/Parsivel2_netCDF_reader.py:59-93 | a variable read succeeds iff the variable is there and, where the code deletes or reads it, its '_FillValue' too; a missing variable is the KeyError naming it, a missing '_FillValue' the KeyError naming that key |
| `PydsdParsivel2Reader.FirstReadError` | pydsd/aux_readers/Parsivel2_netCDF_reader.py:59-93 | __init__ raises nothing iff the time axis is there and non-empty, all seven variables are there, and each of the six that need one has its '_FillValue'; a missing Time is the first KeyError |
| `PydsdParsivel2Reader.FirstReadErrorOrder` | pydsd/aux_readers/Parsivel2_netCDF_reader.py:59-93 | with Time present, an empty axis is the IndexError; then Time's missing '_FillValue' is the KeyError; past both, the exception is the first failing read of VolumetricDrops, ParsivelIntensity, Zh, RawDrops, VelocityDrops and Precip_Code, in that order |
| `PydsdParsivel2Reader.FirstOf` | pydsd/aux_readers/Parsivel2_netCDF_reader.py:64-93 | checks made in turn end with no exception iff none fails, and otherwise with the exception of one check all of whose predecessors passed |
| `PydsdParsivel2Reader.Fields` | pydsd/aux_readers/Parsivel2_netCDF_reader.py:64-93 | the fields dict has exactly the keys Nd, RR, Zh, num_particles, terminal_velocity and Precip_Code |
| `PydsdParsivel2Reader.FillValueBookkeeping` | pydsd/aux_readers/Parsivel2_netCDF_reader.py:62-91 | '_FillValue' is gone from every field but Precip_Code, RR, num_particles and terminal_velocity carry the netCDF fill value, and Nd is a plain array |
| `PydsdParsivel2Reader.Parsivel2NetCdf.constructor` | pydsd/aux_readers/Parsivel2_netCDF_reader.py:49-120 | after __init__ the reader holds the time dict, the fields dict, one info entry per global attribute and the three bin dicts |
| `PydsdParsivel2Reader.Parsivel2NetCdf.ReadTime` | pydsd/aux_readers/Parsivel2_netCDF_reader.py:59-62 | the step-by-step edits of the time dict give TimeField |
| `PydsdParsivel2Reader.Parsivel2NetCdf.ReadFields` | pydsd/aux_readers/Parsivel2_netCDF_reader.py:64-93 | the fields dict filled one variable at a time equals Fields |
| `PydsdParsivel2Reader.Parsivel2NetCdf.SetBinTables` | pydsd/aux_readers/Parsivel2_netCDF_reader.py:95-117 | sets the bin_edges, spread and diameter dicts and nothing else |
| `PydsdParsivel2Reader.Parsivel2NetCdf.ReadGlobalAttributes` | pydsd/aux_readers/Parsivel2_netCDF_reader.py:119-120 | the attribute loop leaves info equal to AttrMap of the attributes, the loop invariant tying each prefix to its map |
| `PydsdParsivel2Reader.ReadParsivel2NetCdf` | pydsd/aux_readers/Parsivel2_netCDF_reader.py:18-36 | fails exactly when __init__ raises, with its first exception; otherwise returns a fresh reader with the fields, time and info above |
| `Common.Transpose` | pydsd/aux_readers/Parsivel2_netCDF_reader.py:65 | the transpose swaps the shape and cell [i][j] is the original [j][i] |
| `Common.TransposeTwice` | pydsd/aux_readers/Parsivel2_netCDF_reader.py:65 | transposing twice gives the array back |
| `Common.AttrMapKeys` | pydsd/aux_readers/Parsivel2_netCDF_reader.py:119-120 | the info dict has exactly one key per global attribute name |
| `Common.AttrMapValues` | pydsd/aux_readers/Parsivel2_netCDF_reader.py:119-120 | with unique attribute names, each info entry holds its attribute's value |
| `Common.AttrMap` | pydsd/aux_readers/Parsivel2_netCDF_reader.py:119-120 | the last attribute read is always in the info dict with its own value, and there are no more keys than attributes |
| `Common.NcVarToDict` | pydsd/aux_readers/Parsivel2_netCDF_reader.py:59 | a variable's dict holds its masked data with its fill value, its attributes and its '_FillValue' |
| `Common.NcTimeToDict` | pydsd/aux_readers/Parsivel2_netCDF_reader.py:59 | the Time dict holds the integer samples, the attributes and the '_FillValue' of the Time variable |
| `Common.VarToDict` | pydsd/aux_readers/Parsivel2_netCDF_reader.py:108-117 | a built dict holds the given data, exactly the keys standard_name, long_name and units with the given texts, and no '_FillValue' |
| `PydisdrometerParsivel2Reader.BinEdgesIncreasing` | pydisdrometer/aux_readers/Parsivel2_netCDF_reader.py:67-80 | the tables have 32 entries; the 33 edges start at 0 and increase strictly |
| `PydisdrometerParsivel2Reader.CenterDistancesNearHalfSpreads` | pydisdrometer/aux_readers/Parsivel2_netCDF_reader.py:67-74 | consecutive truncated centers are within 0.0005 mm of the sum of their half spreads |
| `PydisdrometerParsivel2Reader.EdgeGapsNearSpreads` | pydisdrometer/aux_readers/Parsivel2_netCDF_reader.py:67-80 | every edge gap is within 0.0005 mm of its bin's spread |
| `PydisdrometerParsivel2Reader.EdgesNotMidpoints` | pydisdrometer/aux_readers/Parsivel2_netCDF_reader.py:67-80 | the first gap is not the spread, the first center is not its bin's midpoint, and the bins are not contiguous |
| `PydisdrometerParsivel2Reader.OnlyFirstAndEleventhGapsDiffer` | pydisdrometer/aux_readers/Parsivel2_netCDF_reader.py:67-80 | a gap differs from its bin's spread iff it is the first or the eleventh; those are 0.1245 and 0.2505 mm |
| `PydisdrometerParsivel2Reader.CenterStepsOffOnlyAtEleventh` | pydisdrometer/aux_readers/Parsivel2_netCDF_reader.py:67-74 | consecutive truncated centers are exactly the sum of their half spreads apart except from the tenth to the eleventh, 0.0005 mm too far; the first center sits 0.0005 mm below its bin's midpoint |
| `PydisdrometerParsivel2Reader.VelocityIncreasing` | pydisdrometer/aux_readers/Parsivel2_netCDF_reader.py:61-64 | the velocity table has 32 entries and increases strictly |
| `PydisdrometerParsivel2Reader.EpochTime` | pydisdrometer/aux_readers/Parsivel2_netCDF_reader.py:120-124 | the samples are returned unchanged with units EPOCH_UNITS, standard_name "Time" and long_name "Time (UTC)" |
| `PydisdrometerParsivel2Reader.NdField` | pydisdrometer/aux_readers/Parsivel2_netCDF_reader.py:59-90 | Nd is the time-major transpose of pow10(raw); a cell is masked iff it was masked or its value is below 1, and values are unchanged by masking |
| `PydisdrometerParsivel2Reader.NdMaskedIffNegativeLog` | pydisdrometer/aux_readers/Parsivel2_netCDF_reader.py:59-89 | for an increasing pow10 with pow10(0) = 1, a cell is masked iff it was masked or its raw logarithm is negative |
| `PydisdrometerParsivel2Reader.VelocityField` | pydisdrometer/aux_readers/Parsivel2_netCDF_reader.py:91-93 | the velocity field holds the unmasked velocity table |
| `PydisdrometerParsivel2Reader.RainRateField` | pydisdrometer/aux_readers/Parsivel2_netCDF_reader.py:65-96 | rain_rate holds the ParsivelIntensity values and mask as read |
| `PydisdrometerParsivel2Reader.Fields` | pydisdrometer/aux_readers/Parsivel2_netCDF_reader.py:88-96 | the fields dict has exactly the keys Nd, velocity and rain_rate |
| `PydisdrometerParsivel2Reader.FirstReadError` | pydisdrometer/aux_readers/Parsivel2_netCDF_reader.py:56-66 | __init__ raises nothing iff Time, VolumetricDrops and ParsivelIntensity are all there; otherwise the KeyError names the first missing one, in that order |
| `PydisdrometerParsivel2Reader.Parsivel2NetCdf.constructor` | pydisdrometer/aux_readers/Parsivel2_netCDF_reader.py:46-118 | after __init__ the reader holds the epoch time dict, the three fields, one info entry per global attribute and the bin dicts |
| `PydisdrometerParsivel2Reader.Parsivel2NetCdf.SetBinTables` | pydisdrometer/aux_readers/Parsivel2_netCDF_reader.py:67-86 | edges are computed from the tables before the tables are replaced by their dicts |
| `PydisdrometerParsivel2Reader.Parsivel2NetCdf.ReadFields` | pydisdrometer/aux_readers/Parsivel2_netCDF_reader.py:59-96 | the fields dict filled one entry at a time equals Fields |
| `PydisdrometerParsivel2Reader.Parsivel2NetCdf.ReadGlobalAttributes` | pydisdrometer/aux_readers/Parsivel2_netCDF_reader.py:117-118 | the attribute loop leaves info equal to AttrMap of the attributes |
| `PydisdrometerParsivel2Reader.ReadParsivel2NetCdf` | pydisdrometer/aux_readers/Parsivel2_netCDF_reader.py:15-35 | fails exactly when Time, VolumetricDrops or ParsivelIntensity is missing, naming the first; otherwise returns a fresh reader |
| `Csv.Record` | pydsd/io/csv_writer.py:118-125 | a written record ends with CRLF |
| `Csv.RecordRoundTrip` | pydsd/io/csv_writer.py:118-125 | parsing a written record gives back exactly its cells, quoted or not |
| `ExportCommon.ElementAt` | pydsd/io/csv_writer.py:123-124 | data[i] exists iff i is below the array's length, and is then element i's text; otherwise it is the IndexError |
| `ExportCommon.CollectComplete` | pydsd/io/csv_writer.py:120-125 | the row loop ends normally iff every row can be built, and then it writes exactly those rows in order |
| `ExportCommon.CollectFirstError` | pydsd/io/csv_writer.py:120-125 | when row j is the first to fail, rows 0..j-1 are written and the loop ends with row j's exception |
| `ExportCommon.CollectStops` | pydsd/io/csv_writer.py:120-125 | no row is written after the first exception |
| `ExportCommon.Collect` | pydsd/io/csv_writer.py:120-125 | the loop writes at most one row per index; it ends normally only after writing all of them, and otherwise with the exception of one of the rows it reached |
| `DailyCsvWriter.FieldNamePyradInjective` | pydsd/io/csv_writer.py:36-61 | distinct accepted names give distinct Pyrad names |
| `DailyCsvWriter.FieldNamePyrad` | pydsd/io/csv_writer.py:20-65 | the lookup succeeds iff the name is one of the 13 in the table, gives the table's image, and otherwise is the ValueError naming the type |
| `DailyCsvWriter.Directory` | pydsd/io/csv_writer.py:84-85 | the directory is basepath, then date[0:4], '/', date[0:6], '/'; a date shorter than four characters is used whole in both places |
| `DailyCsvWriter.FreqText` | pydsd/io/csv_writer.py:82 | the frequency text is the first three characters of str(scattering_freq·1e-9), or all of it when shorter |
| `DailyCsvWriter.CreatedDirectory` | pydsd/io/csv_writer.py:81-86 | mkdir is reached, on Directory(date), iff StationName is in info and the data type is known |
| `DailyCsvWriter.FileName` | pydsd/io/csv_writer.py:81-83 | a missing StationName is a KeyError, otherwise an unknown type is a ValueError, otherwise the name is date_station_freqGHz_field_el90.0.csv |
| `DailyCsvWriter.WithFill` | pydsd/io/csv_writer.py:88 | only a masked array's fill value changes; data, mask and attributes are kept |
| `DailyCsvWriter.FilledData` | pydsd/io/csv_writer.py:89 | .filled() succeeds iff the data is a masked array; it keeps the shape of vectors and matrices, each cell unmasked and holding fillvalue where it was masked and its value otherwise; a plain ndarray is the AttributeError |
| `DailyCsvWriter.MaskedWrittenAsFill` | pydsd/io/csv_writer.py:68-89 | element i of a masked vector is written as fillvalue if masked and as its value otherwise; row i of a masked matrix is written as the row with each masked cell replaced by fillvalue |
| `DailyCsvWriter.CommentLines` | pydsd/io/csv_writer.py:92-114 | the comment block is 11 '#' lines iff the location, altitude and a first timestamp exist, else 4 to 10 '#' lines before the exception |
| `DailyCsvWriter.RowCells` | pydsd/io/csv_writer.py:120-125 | row i exists iff Precip_Code and the data reach index i, and is (time[i], Precip_Code[i], data[i], scattering_temp) |
| `DailyCsvWriter.DataRowsComplete` | pydsd/io/csv_writer.py:120-125 | the loop writes one row per timestamp iff the codes and values cover every timestamp, row i being the record of row i's cells |
| `DailyCsvWriter.FieldsAfter` | pydsd/io/csv_writer.py:81-88 | the dsd keeps its field names and every field but the exported one, which gets fillvalue as its fill value once the file name is built and is unchanged otherwise |
| `DailyCsvWriter.HeaderLine` | pydsd/io/csv_writer.py:116-119 | the header row reads back as the four column names date, Precip Code, the Pyrad name and Scattering Temp [deg C] |
| `DailyCsvWriter.DailyExport` | pydsd/io/csv_writer.py:68-138 | the call never removes a file; it ends normally only for a known type of a masked-array field; appending keeps the file as a prefix; a new file starts with the comment block |
| `DailyCsvWriter.UnknownTypeFailsFirst` | pydsd/io/csv_writer.py:81-88 | an unknown type fails while the name is built: no directory, the file as it was, the dsd unchanged |
| `DailyCsvWriter.NewFileLayout` | pydsd/io/csv_writer.py:90-125 | a new file is 11 comment lines, the column header, then exactly one row per timestamp, in order |
| `DailyCsvWriter.AppendLayout` | pydsd/io/csv_writer.py:127-137 | appending keeps the old file as a prefix and adds exactly one row per timestamp, with no comments or header |
| `DailyCsvWriter.RowsReadBack` | pydsd/io/csv_writer.py:118-137 | every exported row reads back as its cells and carries the same scattering temperature |
| `DailyCsvWriter.BareNameTestLosesRows` | pydsd/io/csv_writer.py:87-91 | with the bare-name test missing the file, the output ignores the existing day file and is shorter than a longer one |
| `DailyCsvWriter.DailyExportAtWritePath` | pydsd/io/csv_writer.py:87-128 | with the existence test made on the write path, an earlier file is always a prefix of the file after the call |
| `DailyCsvWriter.WriteRows` | pydsd/io/csv_writer.py:120-125 | the row loop, with its invariants, computes DataRows, one row per timestamp when it ends normally |
| `DailyCsvWriter.WriteCsvFile` | pydsd/io/csv_writer.py:68-138 | the imperative export returns DailyExport and changes only the exported field's fill value in the dsd |
| `NamedCsvWriter.AgreesWithDailyExporter` | pydsd/io/CSV_writer.py:28-39 | on the four names both exporters accept the two maps agree, and only this one accepts PhiDP |
| `NamedCsvWriter.FieldNamePyrad` | pydsd/io/CSV_writer.py:11-41 | the lookup succeeds iff the name is Zh, Zv, Zdr, cross_correlation_ratio_hv or PhiDP, gives the listed image, and otherwise is the ValueError naming the type |
| `NamedCsvWriter.CommentLines` | pydsd/io/CSV_writer.py:66-82 | a complete comment block is 9 '#' lines with "# Fill Value: <str(_FillValue)>" seventh, reached iff the info keys, a known type, the field with its '_FillValue' and a first timestamp exist; any exception leaves 4 to 8 of them |
| `NamedCsvWriter.HeaderLine` | pydsd/io/CSV_writer.py:84-86 | the header row reads back as the three column names date, Precip_Code and the Pyrad name |
| `NamedCsvWriter.PrecipCell` | pydsd/io/CSV_writer.py:90 | the Precip_Code cell of row i exists iff the field is there and reaches index i, and is then element i's text; a missing field is the KeyError and a short array the IndexError |
| `NamedCsvWriter.NewRowCells` | pydsd/io/CSV_writer.py:87-91 | a new-file row exists iff Precip_Code and the data reach index i, and is (time[i], Precip_Code[i], data[i]) |
| `NamedCsvWriter.ListCell` | pydsd/io/CSV_writer.py:101-103 | the list cell exists iff the data is two-dimensional and has row i, and is then the list text of row i's items; a scalar element is the TypeError and a short array the IndexError |
| `NamedCsvWriter.RowItems` | pydsd/io/CSV_writer.py:102-103 | one item per cell of the row, item j being cell j's text |
| `NamedCsvWriter.ListText` | pydsd/io/CSV_writer.py:101-103 | a list is written between brackets: [] when empty, [a] for one item, and the first item followed by ", " when there are more |
| `NamedCsvWriter.CommaSpaced` | pydsd/io/CSV_writer.py:101-103 | the items joined by ", ": empty for no items, the item itself for one, and otherwise the first item then ", " |
| `NamedCsvWriter.ListTextRoundTrip` | pydsd/io/CSV_writer.py:101-103 | for a non-empty list of items without commas, splitting the text between the brackets at ", " gives back exactly the items |
| `NamedCsvWriter.CommaSpacedSplits` | pydsd/io/CSV_writer.py:101-103 | splitting the ", "-join of comma-free items at ", " gives back the items, by induction on the items |
| `NamedCsvWriter.AppendRowCells` | pydsd/io/CSV_writer.py:97-103 | an appended row exists iff Precip_Code reaches index i and the field is there with its list cell, and is (time[i], Precip_Code[i], the list text of row i) |
| `NamedCsvWriter.NewFileLayout` | pydsd/io/CSV_writer.py:63-92 | a new file is 9 comment lines with the fill-value line, the header, then one row per timestamp whose value cell is data[i] |
| `NamedCsvWriter.NewRowsComplete` | pydsd/io/CSV_writer.py:87-91 | when the new-file row loop ends normally it wrote one row per timestamp, row i being the record of row i's cells |
| `NamedCsvWriter.MissingFillValueStops` | pydsd/io/CSV_writer.py:75-77 | a field without '_FillValue' stops a new file after six comment lines with a KeyError |
| `NamedCsvWriter.AppendLayout` | pydsd/io/CSV_writer.py:93-104 | appending keeps the file as a prefix and on success adds exactly one row per timestamp, with no comments or header, whose third cell is the list text of data row i |
| `NamedCsvWriter.NamedExport` | pydsd/io/CSV_writer.py:44-104 | the call always leaves a file; it ends normally only for a known type; appending keeps the old file as a prefix; a new file starts with the comment block |
| `NamedCsvWriter.AppendOneDimensionalFails` | pydsd/io/CSV_writer.py:101-103 | appending one-dimensional data adds nothing and ends with the TypeError |
| `NamedCsvWriter.ListCellQuoted` | pydsd/io/CSV_writer.py:101-103 | a list of two or more items contains a comma, so it is quoted and reads back unchanged |
| `NamedCsvWriter.WriteRows` | pydsd/io/CSV_writer.py:87-103 | the row loop, with its invariants, computes Collect of the row results |
| `NamedCsvWriter.WriteCsvFile` | pydsd/io/CSV_writer.py:44-104 | the imperative export returns NamedExport, testing and writing the same fname |

## Findings

| source | as written | input that shows it | evidently intended | confidence | as-written member | corrected member |
|---|---|---|---|---|---|---|
| pydsd/io/csv_writer.py:87-91 | `glob.glob(fname)` tests the bare file name in the working directory, but the file is opened at `basepath+datapath+fname` | a day file already at the write path, holding more lines than this call writes, while the working directory has no file of that name: it is opened with 'w' and its earlier rows are lost | test the path that is written, so that an existing day file is appended to | medium, not executed | `DailyCsvWriter.BareNameTestLosesRows` | `DailyCsvWriter.DailyExportAtWritePath` |

`DailyCsvWriter.DailyExport` and `DailyCsvWriter.WriteCsvFile` keep the
test as written, with the bare-name result as a parameter.
`DailyCsvWriter.DailyExportAtWritePath` is the corrected export, which
derives that parameter from the file at the write path; its contract is
that an earlier day file is always kept as a prefix.

## Left out

- The numerical engine (`DropSizeDistribution`: moments, gamma fits,
  scattering) is not shown. `Dsd.DropSizeDistribution` holds only the
  attributes the exporters read. `read_parsivel2_netCDF` returns the reader
  rather than wrapping it, and its unreachable `del reader` is dropped.
- Opening the netCDF file and the internals of `ncvar_to_dict`,
  `var_to_dict` and `EPOCH_UNITS` are not modelled: pydsd/io/common.py is
  not part of this model. Their assumed behaviour is written once in
  `Common`.
- `np.power(10, ·)` is the parameter `pow10`. Floating-point rounding,
  overflow and numpy's masking of invalid results are not modelled.
- `PydsdParsivel2Reader.DatetimeFromEpoch`: timestamps are integer seconds.
  The local-time conversion of `datetime.fromtimestamp` is not modelled.
- `str(scattering_freq*10**-9)[0:3]`, `str()` of floats, `strftime` and the
  text the csv module writes for datetimes, numbers and array rows are
  `Format` parameters. Only the `[0:3]` cut is modelled.
- `PydisdrometerParsivel2Reader.EdgeGapsNearSpreads`: the tables, edges and
  gaps are exact reals. In binary64 the first gap (0.0625 - 0.062 + 0.0625)
  misses the 0.0005 bound by about 4e-19; the bound holds only up to float
  rounding.
- `PydisdrometerParsivel2Reader.CenterDistancesNearHalfSpreads`: the same,
  the center distances and half-spread sums are exact reals.
- `PydisdrometerParsivel2Reader.OnlyFirstAndEleventhGapsDiffer`: exact
  reals. In binary64 the fifth gap (from 0.4995 to 0.6245) also differs
  from its spread, by about 6e-17, and the eleventh gap is
  0.25049999999999994 rather than 0.2505.
- `PydisdrometerParsivel2Reader.CenterStepsOffOnlyAtEleventh`: exact reals.
  In binary64 the step from the fourth center (0.437) to the fifth (0.562)
  is also off, by about 6e-17, and the eleventh step is off by
  0.0004999999999999449 rather than 0.0005.
- Info values are text. `str(Altitude_value)` is taken to be the value
  itself.
- The mask of the pydisdrometer time array is not modelled. Its samples are
  kept as integer seconds.
- `glob.glob`, `pathlib.mkdir`, file handles and `np.set_printoptions` are
  I/O. A file is its line sequence and existence is an input.
  `DailyCsvWriter.CreatedDirectory` says only whether `mkdir` is reached
  and on which path.
- Concurrent writers to the same file and partial writes inside one line
  are not modelled.
- examples/various_examples.py is plotting and script glue and is not
  modelled.
