/** Shared vocabulary of the Parsivel² readers and the CSV exporters: numpy
    masked arrays, netCDF variables, and the record ("dict") that the
    readers keep per variable. The helpers of pydsd/io/common.py
    (ncvar_to_dict, var_to_dict, EPOCH_UNITS) are not part of this model;
    what they are taken to do is written out here once, and every reader
    uses these definitions. */
module Common {

  datatype Option<T> = None | Some(value: T)

  /** One element of a numpy masked array: the stored value and its mask bit
      (true means "missing"). A plain ndarray has every mask bit false. */
  datatype Cell = Cell(value: real, masked: bool)

  /** A two-dimensional array with its shape; cells[r][c] is row r, column c. */
  datatype Grid = Grid(rows: nat, cols: nat, cells: seq<seq<Cell>>)
  {
    predicate Valid()
    {
      |cells| == rows && forall r :: 0 <= r < |cells| ==> |cells[r]| == cols
    }
  }

  /** The shapes of netCDF variable data that the readers handle. */
  datatype NcData = Vector(items: seq<Cell>) | Matrix(grid: Grid)
  {
    predicate Valid()
    {
      Matrix? ==> grid.Valid()
    }
  }

  /** The numpy value stored under a dict's 'data' key: a masked array with
      its fill_value, or a plain ndarray. */
  datatype ArrayValue = MaskedArray(data: NcData, fill: real) | PlainArray(data: NcData)

  /** A per-variable dict as the readers keep it: the 'data' entry, the text
      entries ('units', 'long_name', ...) and the '_FillValue' entry, None
      when the key is absent (never present, or deleted). */
  datatype VarDict = VarDict(data: ArrayValue, attrs: map<string, string>, fillValue: Option<real>)

  /** A netCDF variable as the netCDF4 library delivers it: its values as a
      masked array whose fill value is maskFill, its '_FillValue' attribute
      if it has one, and its other (text) attributes. */
  datatype NcVariable = NcVariable(data: NcData, maskFill: real, fillValue: Option<real>, attrs: map<string, string>)

  /** The 'Time' variable, whose values are integer epoch seconds. */
  datatype TimeVariable = TimeVariable(seconds: seq<int>, fillValue: Option<real>, attrs: map<string, string>)

  /** The reader's time dict: 'data' holds timestamps in integer seconds. */
  datatype TimeDict = TimeDict(data: seq<int>, attrs: map<string, string>, fillValue: Option<real>)

  /** An opened netCDF file: the 'Time' variable (kept apart because its
      values are integers), the other variables by name, and the global
      attributes in the order ncattrs() lists them. */
  datatype NcDataset = NcDataset(time: Option<TimeVariable>, variables: map<string, NcVariable>,
                                 attributes: seq<(string, string)>)

  /** numpy's default fill_value for a float array (1e+20). */
  const DefaultFill: real := 100000000000000000000.0

  /** EPOCH_UNITS of pydsd/io/common.py. */
  const EpochUnits: string := "seconds since 1970-1-1 00:00:00+0:00"

  /** ncvar_to_dict: the variable's data and every attribute, '_FillValue' included. */
  function NcVarToDict(v: NcVariable): (d: VarDict)
    ensures d.data == MaskedArray(v.data, v.maskFill) && d.attrs == v.attrs && d.fillValue == v.fillValue
  {
    VarDict(MaskedArray(v.data, v.maskFill), v.attrs, v.fillValue)
  }

  /** ncvar_to_dict applied to the 'Time' variable. */
  function NcTimeToDict(v: TimeVariable): (d: TimeDict)
    ensures d.data == v.seconds && d.attrs == v.attrs && d.fillValue == v.fillValue
  {
    TimeDict(v.seconds, v.attrs, v.fillValue)
  }

  /** var_to_dict(standard_name, data, units, long_name). */
  function VarToDict(standardName: string, data: ArrayValue, units: string, longName: string): (d: VarDict)
    ensures d.data == data && d.fillValue.None?
    ensures d.attrs.Keys == {"standard_name", "long_name", "units"}
    ensures d.attrs["standard_name"] == standardName && d.attrs["units"] == units && d.attrs["long_name"] == longName
  {
    VarDict(data, map["standard_name" := standardName, "long_name" := longName, "units" := units], None)
  }

  /** An unmasked one-dimensional array holding the given values. */
  function Unmasked(xs: seq<real>): (cells: seq<Cell>)
    ensures |cells| == |xs|
    ensures forall i :: 0 <= i < |xs| ==> cells[i] == Cell(xs[i], false)
  {
    seq(|xs|, i requires 0 <= i < |xs| => Cell(xs[i], false))
  }

  // ---------------------------------------------------------------------
  // Elementwise operations

  function MapCells(cells: seq<Cell>, f: Cell -> Cell): (r: seq<Cell>)
    ensures |r| == |cells| && forall i :: 0 <= i < |cells| ==> r[i] == f(cells[i])
  {
    seq(|cells|, i requires 0 <= i < |cells| => f(cells[i]))
  }

  function MapGrid(g: Grid, f: Cell -> Cell): (r: Grid)
    requires g.Valid()
    ensures r.Valid() && r.rows == g.rows && r.cols == g.cols
    ensures forall i, j :: 0 <= i < r.rows && 0 <= j < r.cols ==> r.cells[i][j] == f(g.cells[i][j])
  {
    Grid(g.rows, g.cols, seq(g.rows, i requires 0 <= i < g.rows => MapCells(g.cells[i], f)))
  }

  function MapData(d: NcData, f: Cell -> Cell): (r: NcData)
    requires d.Valid()
    ensures r.Valid() && r.Vector? == d.Vector?
  {
    match d
    case Vector(items) => Vector(MapCells(items, f))
    case Matrix(g) => Matrix(MapGrid(g, f))
  }

  /** One cell of np.power(10, a) where pow10 stands for x |-> 10^x; the
      mask is carried over. */
  function Pow10Cell(pow10: real -> real): Cell -> Cell
  {
    (c: Cell) => Cell(pow10(c.value), c.masked)
  }

  /** One cell of a.filled(): a masked cell becomes the fill value. */
  function FillCell(fill: real): Cell -> Cell
  {
    (c: Cell) => Cell(if c.masked then fill else c.value, false)
  }

  /** One cell of ma.masked_where(a < floor, a): masked when it already was
      or when its value is below the floor; the value is kept. */
  function MaskBelowCell(floor: real): Cell -> Cell
  {
    (c: Cell) => Cell(c.value, c.masked || c.value < floor)
  }

  // ---------------------------------------------------------------------
  // Transposition

  /** ma.transpose of a two-dimensional array. */
  function Transpose(g: Grid): (t: Grid)
    requires g.Valid()
    ensures t.Valid() && t.rows == g.cols && t.cols == g.rows
    ensures forall i, j :: 0 <= i < t.rows && 0 <= j < t.cols ==> t.cells[i][j] == g.cells[j][i]
  {
    Grid(g.cols, g.rows,
         seq(g.cols, i requires 0 <= i < g.cols =>
           seq(g.rows, j requires 0 <= j < g.rows => g.cells[j][i])))
  }

  /** ma.transpose: a one-dimensional array is its own transpose. */
  function TransposeData(d: NcData): (r: NcData)
    requires d.Valid()
    ensures r.Valid() && r.Vector? == d.Vector?
  {
    match d
    case Vector(items) => d
    case Matrix(g) => Matrix(Transpose(g))
  }

  /** Transposing twice gives the array back: the axis swap loses nothing. */
  lemma TransposeTwice(g: Grid)
    requires g.Valid()
    ensures Transpose(Transpose(g)) == g
  {
    var t := Transpose(Transpose(g));
    assert |t.cells| == |g.cells|;
    forall i | 0 <= i < g.rows
      ensures t.cells[i] == g.cells[i]
    {
      assert |t.cells[i]| == |g.cells[i]|;
    }
  }

  // ---------------------------------------------------------------------
  // Global attributes

  /** The info dict after `for key in ncattrs(): info[key] = getncattr(key)`,
      starting from an empty dict: the last attribute is always there with
      its own value, and no key comes from anywhere but an attribute. */
  function AttrMap(attrs: seq<(string, string)>): (info: map<string, string>)
    ensures attrs != [] ==> attrs[|attrs| - 1].0 in info && info[attrs[|attrs| - 1].0] == attrs[|attrs| - 1].1
    ensures |info| <= |attrs|
  {
    if attrs == [] then map[]
    else AttrMap(attrs[..|attrs| - 1])[attrs[|attrs| - 1].0 := attrs[|attrs| - 1].1]
  }

  /** The info dict has exactly one key per attribute name... */
  lemma {:induction false} AttrMapKeys(attrs: seq<(string, string)>)
    ensures AttrMap(attrs).Keys == set i | 0 <= i < |attrs| :: attrs[i].0
  {
    if attrs != [] {
      AttrMapKeys(attrs[..|attrs| - 1]);
      assert attrs == attrs[..|attrs| - 1] + [attrs[|attrs| - 1]];
      NamesOfSnoc(attrs[..|attrs| - 1], attrs[|attrs| - 1]);
    }
  }

  /** The names of a list of attributes with one more at its end. */
  lemma NamesOfSnoc(init: seq<(string, string)>, last: (string, string))
    ensures (set i | 0 <= i < |init + [last]| :: (init + [last])[i].0)
         == (set i | 0 <= i < |init| :: init[i].0) + {last.0}
  {
    var attrs := init + [last];
    var names := set i | 0 <= i < |attrs| :: attrs[i].0;
    var initNames := set i | 0 <= i < |init| :: init[i].0;
    forall x | x in names ensures x in initNames + {last.0} {
      var i :| 0 <= i < |attrs| && attrs[i].0 == x;
      if i < |init| { assert init[i].0 == x; }
    }
    forall x | x in initNames ensures x in names {
      var i :| 0 <= i < |init| && init[i].0 == x;
      assert attrs[i].0 == x;
    }
    assert attrs[|init|].0 == last.0;
  }

  /** ...and, netCDF attribute names being unique, each holds its attribute's value. */
  lemma {:induction false} AttrMapValues(attrs: seq<(string, string)>, k: nat)
    requires k < |attrs|
    requires forall i, j :: 0 <= i < j < |attrs| ==> attrs[i].0 != attrs[j].0
    ensures attrs[k].0 in AttrMap(attrs) && AttrMap(attrs)[attrs[k].0] == attrs[k].1
  {
    if k < |attrs| - 1 {
      AttrMapValues(attrs[..|attrs| - 1], k);
    }
  }
}
