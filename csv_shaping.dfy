// The REST path's CSV output: a header of field names, then one line per row,
// each row projected onto the field names and each cell unwrapped.

module CsvShaping {
  import opened Records

  /** A CSV file's contents as rows of cells; quoting is not modelled. */
  type CsvRows = seq<seq<Value>>

  /** Unwraps one cell: an array becomes its first element (nil for an empty
      array), except that the explicit-null marker becomes nil; any other value
      is kept. */
  function NormalizeCell(v: Value): Value
  {
    match v
    case Array(items) =>
      if |items| == 0 then Nil
      else if items[0] == NilMarker then Nil
      else items[0]
    case _ => v
  }

  /** `row_hash.values_at(*names)`: nil for a name the row lacks. */
  function Lookup(row: Row, name: string): Value
  {
    if name in row then row[name] else Nil
  }

  /** One CSV line: the row's values at the field names, each unwrapped. */
  function ProjectRow(row: Row, names: seq<string>): (line: seq<Value>)
    ensures |line| == |names|
  {
    seq(|names|, i requires 0 <= i < |names| => NormalizeCell(Lookup(row, names[i])))
  }

  /** The header line: the field names. */
  function HeaderRow(names: seq<string>): (header: seq<Value>)
    ensures |header| == |names|
  {
    seq(|names|, i requires 0 <= i < |names| => Str(names[i]))
  }

  /** What the REST path writes: the header, then one line per row in order. */
  function CsvContent(names: seq<string>, rows: seq<Row>): CsvRows
    decreases |rows|
  {
    if |rows| == 0 then [HeaderRow(names)]
    else CsvContent(names, rows[..|rows| - 1]) + [ProjectRow(rows[|rows| - 1], names)]
  }

  /** Wrapping a value in an array, as the API does, is undone by
      normalisation (later elements are dropped); a wrapped explicit-null
      marker and an empty array come out as nil; other values are kept. */
  lemma NormalizeUndoesWrapping(v: Value, rest: seq<Value>)
    ensures NormalizeCell(Array([v] + rest)) == (if v == NilMarker then Nil else v)
    ensures NormalizeCell(Array([])) == Nil
    ensures v.Array? || NormalizeCell(v) == v
  {
    assert ([v] + rest)[0] == v;
  }

  /** A cell holding the wrapped explicit-null marker reads exactly like a
      field the row does not have at all. */
  lemma ExplicitNullReadsAsAbsent(row: Row, names: seq<string>, name: string, rest: seq<Value>)
    ensures ProjectRow(row[name := Array([NilMarker] + rest)], names)
            == ProjectRow(row - {name}, names)
  {
    var a := ProjectRow(row[name := Array([NilMarker] + rest)], names);
    var b := ProjectRow(row - {name}, names);
    forall i | 0 <= i < |names| ensures a[i] == b[i] {
      if names[i] == name {
        assert ([NilMarker] + rest)[0] == NilMarker;
      }
    }
  }

  /** The file has one line more than there are rows; the first line is the
      header, line k + 1 is row k projected, and every line has exactly one
      cell per field. */
  lemma {:induction false} CsvContentShape(names: seq<string>, rows: seq<Row>)
    ensures var c := CsvContent(names, rows);
            && |c| == |rows| + 1
            && c[0] == HeaderRow(names)
            && (forall k :: 0 <= k < |rows| ==> c[k + 1] == ProjectRow(rows[k], names))
            && (forall k :: 0 <= k < |c| ==> |c[k]| == |names|)
    decreases |rows|
  {
    if |rows| > 0 {
      var prefix := rows[..|rows| - 1];
      CsvContentShape(names, prefix);
      var c := CsvContent(names, rows);
      assert c == CsvContent(names, prefix) + [ProjectRow(rows[|rows| - 1], names)];
      forall k | 0 <= k < |rows| ensures c[k + 1] == ProjectRow(rows[k], names) {
        if k < |rows| - 1 {
          assert prefix[k] == rows[k];
        }
      }
    }
  }

  /** Writes the REST rows as the source does: the header first, then each
      row appended with `csv <<`. */
  method WriteCsv(names: seq<string>, rows: seq<Row>) returns (file: CsvRows)
    ensures file == CsvContent(names, rows)
  {
    file := [HeaderRow(names)];
    for i := 0 to |rows|
      invariant file == CsvContent(names, rows[..i])
    {
      assert rows[..i + 1][..i] == rows[..i];
      file := file + [ProjectRow(rows[i], names)];
    }
    assert rows[..|rows|] == rows;
  }
}
