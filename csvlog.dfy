/** The CSV logs the monitor appends to, as the rows `csv.reader` gives back: a file
    either does not exist yet or holds a sequence of rows of fields. Writing and reading
    a row with the `csv` module gives back the same fields, so the text encoding (the
    `;` delimiter and quoting) is not modelled. */
module CsvLog {

  type Row = seq<string>

  datatype File = Absent | Present(rows: seq<Row>)

  /** Appends `row`; a file that did not exist is created with `header` first. A file
      that exists gets no header, even when it is empty. */
  function Append(f: File, header: Row, row: Row): (g: File)
    ensures g.Present? && |g.rows| > 0 && g.rows[|g.rows| - 1] == row
    ensures f.Absent? ==> |g.rows| == 2 && g.rows[0] == header
    ensures f.Present? ==> |g.rows| == |f.rows| + 1 && g.rows[..|f.rows|] == f.rows
  {
    match f
    case Absent => Present([header, row])
    case Present(rows) => Present(rows + [row])
  }

  /** Appends the rows one after another, as successive poll cycles do. */
  function AppendAll(f: File, header: Row, rows: seq<Row>): File
    decreases |rows|
  {
    if rows == [] then f else AppendAll(Append(f, header, rows[0]), header, rows[1..])
  }

  /** Appending rows and then one more is appending them all. */
  lemma {:induction false} AppendAllSnoc(f: File, header: Row, rows: seq<Row>, row: Row)
    ensures AppendAll(f, header, rows + [row]) == Append(AppendAll(f, header, rows), header, row)
    decreases |rows|
  {
    if rows == [] {
      assert rows + [row] == [row];
    } else {
      assert (rows + [row])[0] == rows[0] && (rows + [row])[1..] == rows[1..] + [row];
      AppendAllSnoc(Append(f, header, rows[0]), header, rows[1..], row);
    }
  }

  /** Appending to an existing file only adds the rows. */
  lemma {:induction false} AppendAllPresent(old_rows: seq<Row>, header: Row, rows: seq<Row>)
    ensures AppendAll(Present(old_rows), header, rows) == Present(old_rows + rows)
    decreases |rows|
  {
    if rows != [] {
      AppendAllPresent(old_rows + [rows[0]], header, rows[1..]);
      assert old_rows + [rows[0]] + rows[1..] == old_rows + rows;
    }
  }

  /** A log started from no file holds the header exactly once, as its first row, and
      then every appended row in order. */
  lemma HeaderOnce(header: Row, rows: seq<Row>)
    requires |rows| > 0
    ensures AppendAll(Absent, header, rows) == Present([header] + rows)
  {
    // Both logs hold the header and the first row once the first row is appended.
    AppendAllPresent([header], header, rows);
    assert Append(Absent, header, rows[0]) == Append(Present([header]), header, rows[0]);
  }

  /** What appending rows to a log leaves: the header and the rows when it did not
      exist, its old rows and the new ones when it did. */
  lemma AppendAllShape(f: File, header: Row, rows: seq<Row>)
    ensures f.Absent? && rows != [] ==> AppendAll(f, header, rows) == Present([header] + rows)
    ensures f.Present? ==> AppendAll(f, header, rows) == Present(f.rows + rows)
  {
    if f.Present? {
      AppendAllPresent(f.rows, header, rows);
    } else if rows != [] {
      HeaderOnce(header, rows);
    }
  }

  /** Field `i` of `row`, or "" when the row is shorter. */
  function FieldOr(row: Row, i: nat): (v: string)
    ensures i < |row| ==> v == row[i]
    ensures i >= |row| ==> v == ""
  {
    if i < |row| then row[i] else ""
  }
}
