/** What both CSV exporters share: the way Python turns values into text,
    the exceptions they can raise, and the outcome of one export call. */
module ExportCommon {
  import opened Common

  /** Python's text renderings that the exporters rely on and that depend
      on float printing, datetime formatting or numpy's array printing, so
      they are taken as parameters. */
  datatype Format = Format(
    /** the text the csv module writes for a datetime object, given in epoch seconds */
    datetime: int -> string,
    /** strftime('%Y-%m-%d %H:%M:%S UTC') of a timestamp */
    startStamp: int -> string,
    /** str() of a float */
    str: real -> string,
    /** the text the csv module writes for a float element of an array */
    cell: real -> string,
    /** the text the csv module writes for one row of a two-dimensional array */
    row: seq<Cell> -> string,
    /** repr() of a float element inside a Python list */
    item: real -> string)

  /** The exceptions an export can end with. */
  datatype ExportError =
    | UnknownDataType(name: string)   // ValueError from get_fieldname_pyrad
    | MissingKey(key: string)         // KeyError from a dict lookup
    | IndexOutOfRange                 // IndexError from an array or list index
    | NotSized                        // TypeError: len() of an array element that is a scalar
    | NoFilledMethod                  // AttributeError: .filled() on a plain ndarray

  datatype Result<T> = Ok(value: T) | Err(error: ExportError)

  /** The text of one element of a masked array: numpy prints a masked
      element as '--'. */
  function ScalarText(fmt: Format, c: Cell): (t: string)
    ensures c.masked ==> t == "--"
    ensures !c.masked ==> t == fmt.cell(c.value)
  {
    if c.masked then "--" else fmt.cell(c.value)
  }

  /** The repr of one element inside a Python list: a masked element is
      numpy's 'masked' constant. */
  function ItemText(fmt: Format, c: Cell): (t: string)
    ensures c.masked ==> t == "masked"
    ensures !c.masked ==> t == fmt.item(c.value)
  {
    if c.masked then "masked" else fmt.item(c.value)
  }

  function Length(d: NcData): nat
  {
    match d
    case Vector(items) => |items|
    case Matrix(g) => |g.cells|
  }

  /** The text of a[i]: an element of a one-dimensional array, or a whole
      row of a two-dimensional one. */
  function ElementText(fmt: Format, d: NcData, i: nat): (t: string)
    requires i < Length(d)
    ensures d.Vector? ==> t == ScalarText(fmt, d.items[i])
    ensures d.Matrix? ==> t == fmt.row(d.grid.cells[i])
  {
    match d
    case Vector(items) => ScalarText(fmt, items[i])
    case Matrix(g) => fmt.row(g.cells[i])
  }

  /** a[i] for the values of a dict's 'data' entry, with the IndexError. */
  function ElementAt(fmt: Format, d: NcData, i: nat): (r: Result<string>)
    ensures r.Ok? <==> i < Length(d)
    ensures r.Ok? ==> r.value == ElementText(fmt, d, i)
    ensures r.Err? ==> r.error == IndexOutOfRange
  {
    if i < Length(d) then Ok(ElementText(fmt, d, i)) else Err(IndexOutOfRange)
  }

  /** s[0:k] in Python: the first k characters, or all of a shorter string. */
  function Prefix(s: string, k: nat): (r: string)
    ensures |r| == if |s| < k then |s| else k
    ensures r == s[..|r|]
  {
    if |s| < k then s else s[..k]
  }

  /** A line of the comment block at the head of an exported file. */
  predicate IsComment(line: string)
  {
    |line| > 0 && line[0] == '#'
  }

  /** The result of one export call. file is the file at the path written
      to, after the call (None: no such file); error is the exception the
      call ended with, None when it returned normally. Lines are kept one
      per write: a comment line with its '\n', or a csv record with its CRLF. */
  datatype Outcome = Outcome(file: Option<seq<string>>, error: Option<ExportError>)

  /** The rows of an export, up to the first exception: (rows written, error). */
  type Rows = (seq<string>, Option<ExportError>)

  /** The loop `for i in range(k): writer.writerow(...)` where row i is
      results[i]: the rows written before the first exception, and that
      exception. */
  function Collect(results: seq<Result<string>>, k: nat): (r: Rows)
    requires k <= |results|
    ensures |r.0| <= k
    ensures r.1.None? ==> |r.0| == k
    ensures r.1.Some? ==> Err(r.1.value) in results[..k]
  {
    if k == 0 then ([], None)
    else
      var prev := Collect(results, k - 1);
      if prev.1.Some? then prev
      else match results[k - 1]
        case Ok(line) => (prev.0 + [line], None)
        case Err(e) => (prev.0, Some(e))
  }

  /** Once a row has failed, no later row is written. */
  lemma {:induction false} CollectStops(results: seq<Result<string>>, k: nat, m: nat)
    requires k <= m <= |results| && Collect(results, k).1.Some?
    ensures Collect(results, m) == Collect(results, k)
  {
    if m > k {
      CollectStops(results, k, m - 1);
    }
  }

  /** The loop ends normally exactly when every row can be built, and it
      then writes exactly the k rows in order. */
  lemma {:induction false} CollectComplete(results: seq<Result<string>>, k: nat)
    requires k <= |results|
    ensures Collect(results, k).1.None? <==> forall i :: 0 <= i < k ==> results[i].Ok?
    ensures Collect(results, k).1.None? ==>
      var rows := Collect(results, k).0;
      |rows| == k && forall i :: 0 <= i < k ==> rows[i] == results[i].value
  {
    if k > 0 {
      CollectComplete(results, k - 1);
      var prev := Collect(results, k - 1);
      if prev.1.Some? {
        assert !results[k - 1].Ok? || exists i :: 0 <= i < k - 1 && !results[i].Ok?;
      }
    }
  }

  /** When row j is the first that fails, the rows before it are written
      and the loop ends with row j's exception. */
  lemma {:induction false} CollectFirstError(results: seq<Result<string>>, k: nat, j: nat)
    requires j < k <= |results| && results[j].Err?
    requires forall i :: 0 <= i < j ==> results[i].Ok?
    ensures Collect(results, k).1 == Some(results[j].error)
    ensures |Collect(results, k).0| == j
    ensures forall i :: 0 <= i < j ==> Collect(results, k).0[i] == results[i].value
  {
    CollectComplete(results, j);
    CollectStops(results, j + 1, k);
  }
}
