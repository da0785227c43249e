/**
 * The results directory as the exporters see it: each CSV file is a sequence
 * of rows, each row a sequence of cells. A cell is a string, or `Null` where
 * the writer leaves a slot of its `String[]` unset. Separator and quoting
 * belong to the external CSV writer and are not modelled.
 */
module Files {

  datatype Cell = Text(s: string) | Null

  type Row = seq<Cell>

  type Path = string

  type Dir = map<Path, seq<Row>>

  /** A row of strings, one cell each. */
  function Texts(ss: seq<string>): (r: Row)
    ensures |r| == |ss|
    ensures forall i :: 0 <= i < |ss| ==> r[i] == Text(ss[i])
  {
    seq(|ss|, i requires 0 <= i < |ss| => Text(ss[i]))
  }

  /** `n` unset slots. */
  function Nulls(n: nat): (r: Row)
    ensures |r| == n
    ensures forall i :: 0 <= i < n ==> r[i] == Null
  {
    seq(n, i => Null)
  }

  /** Where the cells of the middle and last parts of a concatenated row sit. */
  lemma TextsMiddle(a: seq<string>, b: seq<string>, c: seq<string>)
    ensures |Texts(a + b + c)| == |a| + |b| + |c|
    ensures forall e :: 0 <= e < |b| ==> Texts(a + b + c)[|a| + e] == Text(b[e])
    ensures forall e :: 0 <= e < |c| ==> Texts(a + b + c)[|a| + |b| + e] == Text(c[e])
  {
    var s := a + b + c;
    forall e | 0 <= e < |b|
      ensures s[|a| + e] == b[e]
    {
    }
    forall e | 0 <= e < |c|
      ensures s[|a| + |b| + e] == c[e]
    {
    }
  }

  /** The filled slots of a line followed by its unset ones. */
  lemma TextsThenNulls(a: seq<string>, n: nat)
    ensures |Texts(a) + Nulls(n)| == |a| + n
    ensures forall i :: 0 <= i < |a| ==> (Texts(a) + Nulls(n))[i] == Text(a[i])
    ensures forall i :: |a| <= i < |a| + n ==> (Texts(a) + Nulls(n))[i] == Null
  {
  }

  /**
   * The file's rows after `writeCsvLine`: a `FileOutputStream` opened in
   * append mode adds the line (creating the file when absent); otherwise it
   * truncates the file to that one line.
   */
  function Written(files: Dir, path: Path, row: Row, append: bool): seq<Row>
  {
    if append && path in files then files[path] + [row] else [row]
  }

  /** The rows a file starts from under the header discipline: its old rows, or the header when it did not exist. */
  function HeaderOr(files: Dir, path: Path, header: Row): (r: seq<Row>)
    ensures path !in files ==> r == [header]
    ensures path in files ==> r == files[path]
  {
    if path in files then files[path] else [header]
  }

  /** Appends one row to a file, creating it when absent. */
  function Append(files: Dir, path: Path, row: Row): (r: Dir)
    ensures r.Keys == files.Keys + {path}
    ensures r[path] == (if path in files then files[path] else []) + [row]
    ensures forall p :: p in files && p != path ==> r[p] == files[p]
  {
    files[path := Written(files, path, row, true)]
  }

  /** Appends the rows in order. */
  function AppendAll(files: Dir, path: Path, rows: seq<Row>): Dir
    decreases |rows|
  {
    if |rows| == 0 then files else Append(AppendAll(files, path, rows[..|rows| - 1]), path, rows[|rows| - 1])
  }

  /** Appending rows one by one is appending them all at once, and no other file changes. */
  lemma {:induction false} AppendAllRows(files: Dir, path: Path, rows: seq<Row>)
    ensures AppendAll(files, path, rows).Keys == files.Keys + (if |rows| > 0 then {path} else {})
    ensures path in files || |rows| > 0 ==>
              AppendAll(files, path, rows)[path] == (if path in files then files[path] else []) + rows
    ensures forall p :: p in files && p != path ==> AppendAll(files, path, rows)[p] == files[p]
    decreases |rows|
  {
    if |rows| > 0 {
      var init := rows[..|rows| - 1];
      AppendAllRows(files, path, init);
      assert init + [rows[|rows| - 1]] == rows;
    }
  }

  /** Writing a header only when the file is absent. */
  function HeaderIfAbsent(files: Dir, path: Path, header: Row): (r: Dir)
    ensures path in r && r[path] == HeaderOr(files, path, header)
    ensures r.Keys == files.Keys + {path}
    ensures forall p :: p in files && p != path ==> r[p] == files[p]
  {
    if path in files then files else files[path := [header]]
  }

  /** The discipline of every result writer: the header only if the file is absent, then one data row. */
  function Record(files: Dir, path: Path, header: Row, row: Row): Dir
  {
    Append(HeaderIfAbsent(files, path, header), path, row)
  }

  /**
   * A file written only under the header discipline holds its header exactly
   * once, as its first row, whatever number of records follows.
   */
  lemma {:induction false} RecordsKeepOneHeader(files: Dir, path: Path, header: Row, rows: seq<Row>)
    requires path !in files
    ensures AppendAll(HeaderIfAbsent(files, path, header), path, rows)[path] == [header] + rows
    ensures |rows| > 0 ==>
              AppendAll(Record(files, path, header, rows[0]), path, rows[1..])[path] == [header] + rows
  {
    AppendAllRows(HeaderIfAbsent(files, path, header), path, rows);
    if |rows| > 0 {
      var f1 := Record(files, path, header, rows[0]);
      AppendAllRows(f1, path, rows[1..]);
      assert [header] + [rows[0]] + rows[1..] == [header] + rows;
    }
  }

  /** The directory after the first `i` of `rows` were each written as a record under `header`. */
  function AfterRecords(files: Dir, path: Path, header: Row, rows: seq<Row>, i: nat): Dir
    requires i <= |rows|
  {
    if i == 0 then files else AppendAll(HeaderIfAbsent(files, path, header), path, rows[..i])
  }

  /**
   * One more record under the header discipline extends the rows appended
   * after the header by the next one, whether or not rows were written before.
   */
  lemma RecordStep(files: Dir, path: Path, header: Row, rows: seq<Row>, i: nat)
    requires i < |rows|
    ensures Record(AfterRecords(files, path, header, rows, i), path, header, rows[i])
            == AfterRecords(files, path, header, rows, i + 1)
  {
    var start := HeaderIfAbsent(files, path, header);
    var before := AfterRecords(files, path, header, rows, i);
    if i > 0 {
      AppendAllRows(start, path, rows[..i]);
    }
    assert HeaderIfAbsent(before, path, header) == AppendAll(start, path, rows[..i]);
    assert rows[..i + 1][..i] == rows[..i];
  }

  /** Directory state that the exporters write through. */
  class FileSystem {
    var files: Dir

    constructor (initial: Dir)
      ensures files == initial
    {
      files := initial;
    }

    predicate Exists(path: Path)
      reads this
    {
      path in files
    }

    /** `writeCsvLine(file, columns, append)`. */
    method WriteCsvLine(path: Path, row: Row, append: bool)
      modifies this
      ensures files == old(files)[path := Written(old(files), path, row, append)]
    {
      files := files[path := Written(files, path, row, append)];
    }

    /** The header-if-absent writer: `if (!results.exists()) writeCsvLine(header, false); writeCsvLine(row, true)`. */
    method WriteRecord(path: Path, header: Row, row: Row)
      modifies this
      ensures files == Record(old(files), path, header, row)
      ensures files[path] == HeaderOr(old(files), path, header) + [row]
    {
      if !Exists(path) {
        WriteCsvLine(path, header, false);
      }
      WriteCsvLine(path, row, true);
    }
  }
}
