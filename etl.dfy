/**
 * The loop of `main` over the sorted input files: accumulate `run_rows` and
 * `encounter_rows`, aborting the whole batch on the first exception.
 */
module Etl {
  import opened Wrappers
  import opened JsonValues
  import opened Timestamp
  import opened Loader
  import opened EncounterIds
  import opened TableWriter
  import opened Normalizer
  import opened Decimal

  /** The two accumulated tables, `run_rows` and `encounter_rows`. */
  datatype Tables = Tables(runs: seq<RunRow>, encounters: seq<EncounterRow>)

  /** The processing of one input file, as the loop body of `main` performs it. */
  type FileStep = InputFile -> Result<FileRows>

  /** The per-file step of `main`: load, run row, then encounter rows. */
  function StepOf(host: Host): FileStep {
    file => NormalizeFile(host, file)
  }

  /** `run_rows` and `encounter_rows` after one more file has been processed. */
  function Append(t: Tables, next: Result<FileRows>): Result<Tables> {
    match next
    case Err(e) => Err(e)
    case Ok(fr) => Ok(Tables(t.runs + [fr.run], t.encounters + fr.encounters))
  }

  /**
   * The tables after processing `files` in order with `step`: each file
   * appends its run row and its encounter rows; the first file that raises
   * ends the batch with that exception.
   */
  function Accumulate(step: FileStep, files: seq<InputFile>): Result<Tables>
    decreases |files|
  {
    if files == [] then Ok(Tables([], []))
    else
      match Accumulate(step, files[..|files| - 1])
      case Err(e) => Err(e)
      case Ok(t) => Append(t, step(files[|files| - 1]))
  }

  /** The tables `main` builds from `files`. */
  function NormalizeAll(host: Host, files: seq<InputFile>): Result<Tables> {
    Accumulate(StepOf(host), files)
  }

  /** Once a file raises, the batch raises the same exception whatever follows. */
  lemma {:induction false} FirstFailureAborts(step: FileStep, files: seq<InputFile>, k: nat)
    requires k < |files|
    requires Accumulate(step, files[..k]).Ok?
    requires step(files[k]).Err?
    ensures Accumulate(step, files) == Err(step(files[k]).error)
    decreases |files|
  {
    var n := |files|;
    if n == k + 1 {
      assert files[..n - 1] == files[..k];
    } else {
      assert files[..n - 1][..k] == files[..k];
      FirstFailureAborts(step, files[..n - 1], k);
    }
  }

  /**
   * One pass of the loop over files: the run row is appended, then one
   * encounter row per element of `encounters`, in order.
   */
  method ProcessFile(host: Host, file: InputFile, runRows: seq<RunRow>, encounterRows: seq<EncounterRow>)
    returns (r: Result<Tables>)
    ensures r == Append(Tables(runRows, encounterRows), NormalizeFile(host, file))
  {
    var loaded := LoadRunFile(file.data);
    if loaded.Err? {
      return Err(loaded.error);
    }
    var (run, encounters) := loaded.value;
    if !run.Obj? {
      return Err(AttributeError);
    }

    // run-level processing
    var runId := ResolveRunId(run.fields, file.stem);
    var startDt := ParseTimestamp(host.fromIsoFormat, Get(run.fields, "start_timestamp"));
    if startDt.Err? {
      return Err(startDt.error);
    }
    var endDt := ParseTimestamp(host.fromIsoFormat, Get(run.fields, "end_timestamp"));
    if endDt.Err? {
      return Err(endDt.error);
    }
    var items := IterItems(encounters);
    if items.Err? {
      return Err(items.error);
    }
    var totalBattles := ResolveTotalBattles(run.fields, |items.value|);
    var runs := runRows + [MakeRunRow(runId, run.fields, startDt.value, endDt.value, totalBattles)];

    // encounter-level processing
    var rows := encounterRows;
    var idx := 0;
    while idx < |items.value|
      invariant 0 <= idx <= |items.value|
      invariant forall j :: 0 <= j < idx ==> items.value[j].Obj?
      invariant |rows| == |encounterRows| + idx && rows[..|encounterRows|] == encounterRows
      invariant forall j :: 0 <= j < idx ==>
                  rows[|encounterRows| + j] == MakeEncounterRow(host, runId, items.value[j].fields, j)
    {
      var enc := items.value[idx];
      if !enc.Obj? {
        return Err(AttributeError);
      }
      rows := rows + [MakeEncounterRow(host, runId, enc.fields, idx)];
      idx := idx + 1;
    }
    ghost var expected := EncounterRows(host, runId, items.value);
    assert expected.Ok? && rows == encounterRows + expected.value;
    return Ok(Tables(runs, rows));
  }

  /**
   * The body of `main` from the empty `run_rows` and `encounter_rows` to the
   * end of the loop over the files.
   */
  method NormalizeBatch(host: Host, files: seq<InputFile>) returns (r: Result<Tables>)
    ensures r == NormalizeAll(host, files)
  {
    var tables := Tables([], []);
    for k := 0 to |files|
      invariant Accumulate(StepOf(host), files[..k]) == Ok(tables)
    {
      var next := ProcessFile(host, files[k], tables.runs, tables.encounters);
      if next.Err? {
        FirstFailureAborts(StepOf(host), files, k);
        return next;
      }
      assert files[..k + 1][..k] == files[..k];
      tables := next.value;
    }
    assert files[..|files|] == files;
    return Ok(tables);
  }

  /** The rows of each file, when every file is processed without an exception. */
  function PerFile(step: FileStep, files: seq<InputFile>): (frs: seq<FileRows>)
    requires forall i :: 0 <= i < |files| ==> step(files[i]).Ok?
    ensures |frs| == |files|
  {
    seq(|files|, i requires 0 <= i < |files| => step(files[i]).value)
  }

  /** The encounter rows of the files, one file's block after the other. */
  function Flatten(frs: seq<FileRows>): seq<EncounterRow>
    decreases |frs|
  {
    if frs == [] then [] else Flatten(frs[..|frs| - 1]) + frs[|frs| - 1].encounters
  }

  /** The batch succeeds exactly when every file is processed without an exception. */
  lemma {:induction false} BatchSucceedsIff(step: FileStep, files: seq<InputFile>)
    ensures Accumulate(step, files).Ok? <==> forall i :: 0 <= i < |files| ==> step(files[i]).Ok?
    decreases |files|
  {
    if files != [] {
      var n := |files| - 1;
      var init := files[..n];
      BatchSucceedsIff(step, init);
      assert forall i :: 0 <= i < n ==> init[i] == files[i];
    }
  }

  /**
   * A successful batch holds one run row per file, in file order, and the
   * files' encounter rows concatenated in file order.
   */
  lemma {:induction false} BatchTables(step: FileStep, files: seq<InputFile>)
    requires Accumulate(step, files).Ok?
    ensures forall i :: 0 <= i < |files| ==> step(files[i]).Ok?
    ensures var t := Accumulate(step, files).value;
            && |t.runs| == |files|
            && (forall i :: 0 <= i < |files| ==> t.runs[i] == step(files[i]).value.run)
            && t.encounters == Flatten(PerFile(step, files))
    decreases |files|
  {
    BatchSucceedsIff(step, files);
    if files != [] {
      var n := |files| - 1;
      var init := files[..n];
      var t0 := Accumulate(step, init).value;
      var fr := step(files[n]).value;
      var t := Accumulate(step, files).value;
      assert t == Tables(t0.runs + [fr.run], t0.encounters + fr.encounters);
      BatchTables(step, init);
      assert forall i :: 0 <= i < n ==> init[i] == files[i];
      var frs := PerFile(step, files);
      assert frs[..n] == PerFile(step, init);
      assert frs[n] == fr;
      assert Flatten(frs) == Flatten(frs[..n]) + fr.encounters;
    }
  }

  /**
   * A failed batch reports the exception of the first file that raised; every
   * file before it was processed without one.
   */
  lemma {:induction false} BatchFailsAtFirstBadFile(step: FileStep, files: seq<InputFile>)
    requires Accumulate(step, files).Err?
    ensures exists k :: 0 <= k < |files|
              && step(files[k]) == Err(Accumulate(step, files).error)
              && forall j :: 0 <= j < k ==> step(files[j]).Ok?
    decreases |files|
  {
    var n := |files| - 1;
    var init := files[..n];
    var e := Accumulate(step, files).error;
    if Accumulate(step, init).Err? {
      assert Accumulate(step, init).error == e;
      BatchFailsAtFirstBadFile(step, init);
      var k :| 0 <= k < n && step(init[k]) == Err(e)
                && forall j :: 0 <= j < k ==> step(init[j]).Ok?;
      assert forall j :: 0 <= j <= k ==> init[j] == files[j];
    } else {
      BatchSucceedsIff(step, init);
      assert forall j :: 0 <= j < n ==> init[j] == files[j];
      assert step(files[n]) == Err(e);
    }
  }

  /**
   * Processing one more file leaves every earlier row unchanged and appends
   * exactly one run row and that file's encounter rows.
   */
  lemma AppendingAFile(step: FileStep, files: seq<InputFile>, file: InputFile)
    requires Accumulate(step, files + [file]).Ok?
    ensures Accumulate(step, files).Ok? && step(file).Ok?
    ensures var before := Accumulate(step, files).value;
            var after := Accumulate(step, files + [file]).value;
            var fr := step(file).value;
            && after.runs == before.runs + [fr.run]
            && after.encounters == before.encounters + fr.encounters
  {
    assert (files + [file])[..|files|] == files;
  }

  /** Every encounter row of one document carries that document's `run_id`. */
  predicate Linked(fr: FileRows) {
    forall e :: e in fr.encounters ==> e.runId == fr.run.runId
  }

  /**
   * When every document's encounter rows carry its own `run_id`, every
   * encounter row of the batch has a run row with the same `run_id`.
   */
  lemma {:induction false} EncountersReferToRuns(step: FileStep, files: seq<InputFile>)
    requires Accumulate(step, files).Ok?
    requires forall i :: 0 <= i < |files| && step(files[i]).Ok? ==> Linked(step(files[i]).value)
    ensures var t := Accumulate(step, files).value;
            forall e :: e in t.encounters ==> exists i :: 0 <= i < |t.runs| && t.runs[i].runId == e.runId
    decreases |files|
  {
    if files != [] {
      var n := |files| - 1;
      assert forall i :: 0 <= i < n ==> files[..n][i] == files[i];
      EncountersReferToRuns(step, files[..n]);
      var before := Accumulate(step, files[..n]).value;
      var fr := step(files[n]).value;
      var t := Accumulate(step, files).value;
      assert t.runs == before.runs + [fr.run];
      forall e | e in t.encounters
        ensures exists i :: 0 <= i < |t.runs| && t.runs[i].runId == e.runId
      {
        if e in before.encounters {
          var i :| 0 <= i < |before.runs| && before.runs[i].runId == e.runId;
          assert t.runs[i] == before.runs[i];
        } else {
          assert e in fr.encounters;
          assert t.runs[|before.runs|] == fr.run;
        }
      }
    }
  }

  /** Every encounter row `main` writes refers to a run row it writes. */
  lemma EncounterRowsReferToRunRows(host: Host, files: seq<InputFile>)
    requires NormalizeAll(host, files).Ok?
    ensures var t := NormalizeAll(host, files).value;
            forall e :: e in t.encounters ==> exists i :: 0 <= i < |t.runs| && t.runs[i].runId == e.runId
  {
    forall i | 0 <= i < |files| && StepOf(host)(files[i]).Ok?
      ensures Linked(StepOf(host)(files[i]).value)
    {
      var fr := NormalizeFile(host, files[i]);
      assert StepOf(host)(files[i]) == fr;
      forall e | e in fr.value.encounters
        ensures e.runId == fr.value.run.runId
      {
        var j :| 0 <= j < |fr.value.encounters| && fr.value.encounters[j] == e;
      }
    }
    EncountersReferToRuns(StepOf(host), files);
  }

  /**
   * Writing both tables through their column lists never raises and writes a
   * header plus one line per row: the rows carry exactly the declared keys.
   */
  lemma TablesWriteCleanly(host: Host, t: Tables)
    ensures var runDicts := seq(|t.runs|, i requires 0 <= i < |t.runs| => t.runs[i].AsDict());
            var w := WriteTable(host.containerRepr, RunFieldnames, runDicts);
            w.Ok? && |w.value| == |t.runs| + 1
    ensures var encounterDicts := seq(|t.encounters|, i requires 0 <= i < |t.encounters| => t.encounters[i].AsDict());
            var w := WriteTable(host.containerRepr, EncounterFieldnames, encounterDicts);
            w.Ok? && |w.value| == |t.encounters| + 1
  {
    forall i | 0 <= i < |t.runs|
      ensures t.runs[i].AsDict().Keys <= FieldSet(RunFieldnames)
    {
      RowsMatchColumns(t.runs[i], EncounterRow(Null, Null, Null, Null, Null, Null, Null, Null, Null, Null, Null));
    }
    forall i | 0 <= i < |t.encounters|
      ensures t.encounters[i].AsDict().Keys <= FieldSet(EncounterFieldnames)
    {
      RowsMatchColumns(RunRow(Null, Null, Null, Null, Null, Null, Null, Null, Null, Null, Null, Null), t.encounters[i]);
    }
  }

  /** The scenario: a document with no `run_id` or `total_battles` and one encounter lacking `encounter_id` and `battle_index`. */
  const ScenarioEncounter: Object := map["enemy_species" := Int(16), "enemy_level" := Int(5)]
  const ScenarioDocument: Json := Obj(map["run" := Obj(map[]), "encounters" := Arr([Obj(ScenarioEncounter)])])
  const ScenarioRunRow: RunRow := RunRow(Str("run_X"), Null, Null, Null, Null, Null, Null, Int(1), Null, Null, Null, Null)
  const ScenarioEncounterRow: EncounterRow :=
    EncounterRow(Str("run_X_000"), Str("run_X"), Int(0), Int(16), Null, Null, Int(5), Null, Null, Null, Null)

  lemma ScenarioLookups()
    ensures "encounter_id" !in ScenarioEncounter && "battle_index" !in ScenarioEncounter
    ensures "enemy_type1" !in ScenarioEncounter && "enemy_type2" !in ScenarioEncounter
    ensures "is_boss" !in ScenarioEncounter && "encounter_result" !in ScenarioEncounter
    ensures "enemy_ended_run" !in ScenarioEncounter && "notes" !in ScenarioEncounter
  {
  }

  lemma ScenarioEncounterRowBuilt(host: Host)
    ensures MakeEncounterRow(host, Str("run_X"), ScenarioEncounter, 0) == ScenarioEncounterRow
  {
    assert Pad3(0) == "000" by {
      assert Digits(0) == "0";
      assert Zeros(2) == "00";
    }
    ScenarioLookups();
    assert ResolveEncounterId(host, Str("run_X"), ScenarioEncounter, 0) == Str("run_X_000");
  }

  lemma ScenarioEncounterRows(host: Host)
    ensures EncounterRows(host, Str("run_X"), [Obj(ScenarioEncounter)]) == Ok([ScenarioEncounterRow])
  {
    ScenarioEncounterRowBuilt(host);
    var rows := EncounterRows(host, Str("run_X"), [Obj(ScenarioEncounter)]);
    assert rows.Ok? && |rows.value| == 1;
    assert rows.value == [ScenarioEncounterRow];
  }

  /**
   * The file stem becomes the run id, `total_battles` becomes 1, and the
   * encounter gets id `run_X_000` and `battle_index` 0; the batch has one run
   * row and one encounter row.
   */
  lemma SingleEncounterScenario(host: Host)
    ensures NormalizeAll(host, [InputFile("run_X", ScenarioDocument)])
              == Ok(Tables([ScenarioRunRow], [ScenarioEncounterRow]))
  {
    var files := [InputFile("run_X", ScenarioDocument)];
    assert files[..0] == [];
    ScenarioEncounterRows(host);
    assert LoadRunFile(ScenarioDocument) == Ok((Obj(map[]), Arr([Obj(ScenarioEncounter)])));
    assert MakeRunRow(Str("run_X"), map[], None, None, Int(1)) == ScenarioRunRow;
    assert NormalizeFile(host, files[0]) == Ok(FileRows(ScenarioRunRow, [ScenarioEncounterRow]));
    assert NormalizeAll(host, files[..0]) == Ok(Tables([], []));
    assert [] + [ScenarioRunRow] == [ScenarioRunRow];
    assert [] + [ScenarioEncounterRow] == [ScenarioEncounterRow];
    assert Append(Tables([], []), NormalizeFile(host, files[0])) == Ok(Tables([ScenarioRunRow], [ScenarioEncounterRow]));
  }
}
