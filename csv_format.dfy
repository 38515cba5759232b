/** The rows that Python's csv module writes with its default dialect
    ('excel'): fields joined by ',', a field quoted with '"' when it holds a
    comma, a quote or a line break, quotes inside a quoted field doubled, and
    every record ended by CRLF. These are rules 2, 6 and 7 of section 2 of
    RFC 4180. A parser for such records is given beside the writer, and the
    two are proved to be inverse. */
module Csv {
  import opened Common

  const Delimiter: char := ','
  const Quote: char := '"'
  const Terminator: string := "\r\n"

  /** QUOTE_MINIMAL: only fields holding a special character are quoted. */
  predicate NeedsQuotes(s: string)
  {
    Delimiter in s || Quote in s || '\r' in s || '\n' in s
  }

  /** doublequote=True: every quote inside a quoted field is written twice. */
  function DoubleQuotes(s: string): (r: string)
    ensures |r| >= |s|
  {
    if s == [] then []
    else (if s[0] == Quote then [Quote, Quote] else [s[0]]) + DoubleQuotes(s[1..])
  }

  function QuoteField(s: string): string
  {
    if NeedsQuotes(s) then [Quote] + DoubleQuotes(s) + [Quote] else s
  }

  function JoinFields(fields: seq<string>): string
    requires |fields| > 0
  {
    if |fields| == 1 then fields[0] else fields[0] + [Delimiter] + JoinFields(fields[1..])
  }

  function QuoteAll(cells: seq<string>): (r: seq<string>)
    ensures |r| == |cells| && forall i :: 0 <= i < |cells| ==> r[i] == QuoteField(cells[i])
  {
    seq(|cells|, i requires 0 <= i < |cells| => QuoteField(cells[i]))
  }

  /** One record, as csv.writer.writerow writes it. A record made of one
      empty field is written as a quoted empty string, so that it does not
      read back as an empty line. */
  function Record(cells: seq<string>): (line: string)
    requires |cells| > 0
    ensures |line| >= 2 && line[|line| - 2..] == Terminator
  {
    (if cells == [""] then [Quote, Quote] else JoinFields(QuoteAll(cells))) + Terminator
  }

  // ---------------------------------------------------------------------
  // Reading records back

  /** An unquoted field runs up to the first comma. */
  function SplitAtComma(s: string): (r: (string, string))
    ensures r.0 + r.1 == s && Delimiter !in r.0 && (r.1 == [] || r.1[0] == Delimiter)
  {
    if s == [] then ("", "")
    else if s[0] == Delimiter then ("", s)
    else var (a, b) := SplitAtComma(s[1..]); assert s == [s[0]] + s[1..]; ([s[0]] + a, b)
  }

  /** The rest of a quoted field after its opening quote: a doubled quote
      stands for one quote, a lone quote closes the field. None when the
      field is never closed. */
  function ReadQuoted(s: string): (r: Option<(string, string)>)
    ensures r.Some? ==> |r.value.1| < |s|
  {
    if s == [] then None
    else if s[0] == Quote then
      if |s| > 1 && s[1] == Quote then
        match ReadQuoted(s[2..])
        case None => None
        case Some(p) => Some(([Quote] + p.0, p.1))
      else Some(("", s[1..]))
    else
      match ReadQuoted(s[1..])
      case None => None
      case Some(p) => Some(([s[0]] + p.0, p.1))
  }

  /** The fields of a record without its terminator, None if it is malformed. */
  function ParseFields(s: string): Option<seq<string>>
    decreases |s|
  {
    if |s| > 0 && s[0] == Quote then
      match ReadQuoted(s[1..])
      case None => None
      case Some(p) =>
        if p.1 == [] then Some([p.0])
        else if p.1[0] != Delimiter then None
        else match ParseFields(p.1[1..])
             case None => None
             case Some(fs) => Some([p.0] + fs)
    else
      var p := SplitAtComma(s);
      if p.1 == [] then Some([p.0])
      else match ParseFields(p.1[1..])
           case None => None
           case Some(fs) => Some([p.0] + fs)
  }

  function ParseRecord(line: string): Option<seq<string>>
  {
    if |line| >= 2 && line[|line| - 2..] == Terminator then ParseFields(line[..|line| - 2]) else None
  }

  lemma {:induction false} ReadQuotedDoubled(x: string, rest: string)
    requires rest == [] || rest[0] == Delimiter
    ensures ReadQuoted(DoubleQuotes(x) + [Quote] + rest) == Some((x, rest))
  {
    var s := DoubleQuotes(x) + [Quote] + rest;
    if x == [] {
      assert s == [Quote] + rest;
      assert s[1..] == rest;
    } else {
      var head := if x[0] == Quote then [Quote, Quote] else [x[0]];
      var tail := DoubleQuotes(x[1..]) + [Quote] + rest;
      assert DoubleQuotes(x) == head + DoubleQuotes(x[1..]);
      assert s == head + tail;
      assert s[|head|..] == tail;
      ReadQuotedDoubled(x[1..], rest);
      assert x == [x[0]] + x[1..];
    }
  }

  lemma {:induction false} SplitAtCommaOf(f: string, rest: string)
    requires Delimiter !in f && (rest == [] || rest[0] == Delimiter)
    ensures SplitAtComma(f + rest) == (f, rest)
  {
    if f == [] {
      assert f + rest == rest;
    } else {
      SplitAtCommaOf(f[1..], rest);
      assert (f + rest)[1..] == f[1..] + rest;
      assert f == [f[0]] + f[1..];
      assert (f + rest)[0] == f[0] != Delimiter;
    }
  }

  /** Joined, quoted fields read back as the same fields. */
  lemma {:induction false} ParseJoined(cells: seq<string>)
    requires |cells| > 0
    ensures ParseFields(JoinFields(QuoteAll(cells))) == Some(cells)
  {
    var q := QuoteAll(cells);
    var c := cells[0];
    var rest := if |cells| == 1 then "" else [Delimiter] + JoinFields(q[1..]);
    var s := JoinFields(q);
    assert s == QuoteField(c) + rest;
    if |cells| > 1 {
      assert q[1..] == QuoteAll(cells[1..]);
      ParseJoined(cells[1..]);
      assert rest[1..] == JoinFields(q[1..]);
    }
    ParseField(c, rest, if |cells| == 1 then None else Some(cells[1..]));
    assert cells == [c] + cells[1..];
  }

  /** One field followed by the rest of a record: the field comes back and
      parsing goes on after the comma. */
  lemma {:induction false} ParseField(c: string, rest: string, tail: Option<seq<string>>)
    requires rest == [] <==> tail.None?
    requires rest != [] ==> rest[0] == Delimiter && ParseFields(rest[1..]) == tail
    ensures ParseFields(QuoteField(c) + rest) == Some([c] + (if tail.None? then [] else tail.value))
  {
    if NeedsQuotes(c) {
      ParseQuotedField(c, rest);
    } else {
      ParsePlainField(c, rest);
      var s := QuoteField(c) + rest;
      var p := SplitAtComma(s);
      assert p.0 == c && p.1 == rest;
      if rest == [] {
        assert ParseFields(s) == Some([c]);
        assert [c] + [] == [c];
      } else {
        assert ParseFields(p.1[1..]) == tail;
        assert ParseFields(s) == Some([c] + tail.value);
      }
    }
  }

  lemma {:induction false} ParseQuotedField(c: string, rest: string)
    requires NeedsQuotes(c) && (rest == [] || rest[0] == Delimiter)
    ensures var s := QuoteField(c) + rest;
      |s| > 0 && s[0] == Quote && ReadQuoted(s[1..]) == Some((c, rest))
  {
    var s := QuoteField(c) + rest;
    assert s == [Quote] + (DoubleQuotes(c) + [Quote] + rest);
    assert s[1..] == DoubleQuotes(c) + [Quote] + rest;
    ReadQuotedDoubled(c, rest);
  }

  lemma {:induction false} ParsePlainField(c: string, rest: string)
    requires !NeedsQuotes(c) && (rest == [] || rest[0] == Delimiter)
    ensures var s := QuoteField(c) + rest;
      !(|s| > 0 && s[0] == Quote) && SplitAtComma(s) == (c, rest)
  {
    var s := QuoteField(c) + rest;
    assert s == c + rest;
    SplitAtCommaOf(c, rest);
    if c != [] {
      assert c[0] in c;
      assert s[0] == c[0];
    }
  }

  /** What writerow writes, the reader gives back: the round trip of an
      exported row. */
  lemma RecordRoundTrip(cells: seq<string>)
    requires |cells| > 0
    ensures ParseRecord(Record(cells)) == Some(cells)
  {
    var line := Record(cells);
    if cells == [""] {
      assert line[..|line| - 2] == [Quote, Quote];
      assert ReadQuoted([Quote]) == Some(("", ""));
    } else {
      assert line[..|line| - 2] == JoinFields(QuoteAll(cells));
      ParseJoined(cells);
    }
  }
}
