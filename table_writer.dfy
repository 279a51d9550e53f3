/**
 * The column projection `csv.DictWriter` performs on each row: rows as dicts,
 * a fixed column list, None written as an empty field.
 */
module TableWriter {
  import opened Wrappers
  import opened JsonValues

  /** One output record as a dict: column name to value (None is Null). */
  type Row = map<string, Json>

  function FieldSet(columns: seq<string>): set<string> {
    set c | c in columns
  }

  predicate Distinct(columns: seq<string>) {
    forall i, j :: 0 <= i < j < |columns| ==> columns[i] != columns[j]
  }

  /** The dict whose keys are `columns`, the k-th holding `values[k]`. */
  function ZipRow(columns: seq<string>, values: seq<Json>): (row: Row)
    requires |columns| == |values|
    ensures row.Keys == FieldSet(columns)
    ensures Distinct(columns) ==> forall k :: 0 <= k < |columns| ==> row[columns[k]] == values[k]
    decreases |columns|
  {
    if columns == [] then map[]
    else
      var n := |columns| - 1;
      var prefix := ZipRow(columns[..n], values[..n]);
      assert columns == columns[..n] + [columns[n]];
      prefix[columns[n] := values[n]]
  }

  /**
   * `DictWriter._dict_to_list`: the row's values in column order. A key that
   * is not a column raises ValueError (the default `extrasaction="raise"`);
   * a column the row lacks gets the empty rest value, written here as Null.
   */
  function Project(row: Row, columns: seq<string>): (r: Result<seq<Json>>)
    ensures r.Ok? <==> row.Keys <= FieldSet(columns)
    ensures r.Err? ==> r.error == ValueError
    ensures r.Ok? ==> |r.value| == |columns|
    ensures r.Ok? ==> forall k :: 0 <= k < |columns| && columns[k] in row ==> r.value[k] == row[columns[k]]
    ensures r.Ok? ==> forall k :: 0 <= k < |columns| && columns[k] !in row ==> r.value[k] == Null
  {
    if row.Keys <= FieldSet(columns) then
      Ok(seq(|columns|, k requires 0 <= k < |columns| => Get(row, columns[k])))
    else Err(ValueError)
  }

  /** One CSV field: None is the empty field, anything else is `str(value)`. */
  function Cell(containerRepr: Json -> string, v: Json): (field: string)
    ensures v.Null? ==> field == ""
    ensures v.Str? ==> field == v.s
  {
    if v.Null? then "" else PyStr(containerRepr, v)
  }

  /** `writeheader()` then `writerows(rows)`: the header line and one line of fields per row. */
  function WriteTable(containerRepr: Json -> string, columns: seq<string>, rows: seq<Row>): (r: Result<seq<seq<string>>>)
    ensures r.Ok? <==> forall i :: 0 <= i < |rows| ==> rows[i].Keys <= FieldSet(columns)
    ensures r.Ok? ==> |r.value| == |rows| + 1 && r.value[0] == columns
    ensures r.Ok? ==> forall i :: 1 <= i < |r.value| ==> |r.value[i]| == |columns|
    ensures r.Ok? ==> forall i, k :: 0 <= i < |rows| && 0 <= k < |columns| ==>
              r.value[i + 1][k] == if columns[k] in rows[i] then Cell(containerRepr, rows[i][columns[k]]) else ""
  {
    if forall i :: 0 <= i < |rows| ==> Project(rows[i], columns).Ok? then
      var lines := seq(|rows|, i requires 0 <= i < |rows| =>
        var values := Project(rows[i], columns).value;
        seq(|columns|, k requires 0 <= k < |columns| => Cell(containerRepr, values[k])));
      Ok([columns] + lines)
    else Err(ValueError)
  }

  /** A row whose keys are exactly the distinct columns projects without error and without loss. */
  lemma ProjectLossless(row: Row, columns: seq<string>)
    requires Distinct(columns) && row.Keys == FieldSet(columns)
    ensures Project(row, columns).Ok?
    ensures ZipRow(columns, Project(row, columns).value) == row
  {
    var values := Project(row, columns).value;
    var back := ZipRow(columns, values);
    forall c | c in row
      ensures back[c] == row[c]
    {
      var k :| 0 <= k < |columns| && columns[k] == c;
    }
  }

  /** Projecting the dict built from the columns gives back the values, in order. */
  lemma ZipRowProjects(columns: seq<string>, values: seq<Json>)
    requires Distinct(columns) && |columns| == |values|
    ensures Project(ZipRow(columns, values), columns) == Ok(values)
  {
    var row := ZipRow(columns, values);
    var r := Project(row, columns);
    assert r.Ok?;
    forall k | 0 <= k < |columns|
      ensures r.value[k] == values[k]
    {
      assert columns[k] in row;
    }
    assert r.value == values;
  }
}
