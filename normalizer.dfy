/**
 * The body of the loop over files: one run row and one encounter row per
 * encounter, with the script's defaulting rules.
 */
module Normalizer {
  import opened Wrappers
  import opened JsonValues
  import opened Timestamp
  import opened Loader
  import opened EncounterIds
  import opened TableWriter

  /**
   * Library behaviour the script relies on and does not define:
   * `datetime.fromisoformat`, and `repr` of a list or dict (what an f-string
   * prints for a `run_id` that is a container).
   */
  datatype Host = Host(fromIsoFormat: IsoParser, containerRepr: Json -> string)

  /** The file name without its extension, and the decoded document. */
  datatype InputFile = InputFile(stem: string, data: Json)

  const RunFieldnames: seq<string> := [
    "run_id", "start_timestamp", "end_timestamp", "result", "final_stage", "final_boss",
    "starter_species", "total_battles", "session_date", "session_day_of_week",
    "time_of_day_bucket", "run_tag"]

  const EncounterFieldnames: seq<string> := [
    "encounter_id", "run_id", "battle_index", "enemy_species", "enemy_type1", "enemy_type2",
    "enemy_level", "is_boss", "encounter_result", "enemy_ended_run", "notes"]

  /** The dict appended to `run_rows`, one field per key. */
  datatype RunRow = RunRow(
    runId: Json, startTimestamp: Json, endTimestamp: Json, result: Json, finalStage: Json,
    finalBoss: Json, starterSpecies: Json, totalBattles: Json, sessionDate: Json,
    sessionDayOfWeek: Json, timeOfDayBucket: Json, runTag: Json)
  {
    /** The value the script stores under the key `name`. */
    function Field(name: string): Json {
      match name
      case "run_id" => runId
      case "start_timestamp" => startTimestamp
      case "end_timestamp" => endTimestamp
      case "result" => result
      case "final_stage" => finalStage
      case "final_boss" => finalBoss
      case "starter_species" => starterSpecies
      case "total_battles" => totalBattles
      case "session_date" => sessionDate
      case "session_day_of_week" => sessionDayOfWeek
      case "time_of_day_bucket" => timeOfDayBucket
      case "run_tag" => runTag
      case _ => Null
    }

    /** The values in the order of `RunFieldnames`: each column holds the value stored under its name. */
    function Values(): (vs: seq<Json>)
      ensures |vs| == |RunFieldnames|
      ensures forall k :: 0 <= k < |RunFieldnames| ==> vs[k] == Field(RunFieldnames[k])
    {
      [runId, startTimestamp, endTimestamp, result, finalStage, finalBoss, starterSpecies,
       totalBattles, sessionDate, sessionDayOfWeek, timeOfDayBucket, runTag]
    }

    /** The row as the dict the script builds. */
    function AsDict(): Row {
      ZipRow(RunFieldnames, Values())
    }
  }

  /** The dict appended to `encounter_rows`, one field per key. */
  datatype EncounterRow = EncounterRow(
    encounterId: Json, runId: Json, battleIndex: Json, enemySpecies: Json, enemyType1: Json,
    enemyType2: Json, enemyLevel: Json, isBoss: Json, encounterResult: Json,
    enemyEndedRun: Json, notes: Json)
  {
    /** The value the script stores under the key `name`. */
    function Field(name: string): Json {
      match name
      case "encounter_id" => encounterId
      case "run_id" => runId
      case "battle_index" => battleIndex
      case "enemy_species" => enemySpecies
      case "enemy_type1" => enemyType1
      case "enemy_type2" => enemyType2
      case "enemy_level" => enemyLevel
      case "is_boss" => isBoss
      case "encounter_result" => encounterResult
      case "enemy_ended_run" => enemyEndedRun
      case "notes" => notes
      case _ => Null
    }

    /** The values in the order of `EncounterFieldnames`: each column holds the value stored under its name. */
    function Values(): (vs: seq<Json>)
      ensures |vs| == |EncounterFieldnames|
      ensures forall k :: 0 <= k < |EncounterFieldnames| ==> vs[k] == Field(EncounterFieldnames[k])
    {
      [encounterId, runId, battleIndex, enemySpecies, enemyType1, enemyType2, enemyLevel,
       isBoss, encounterResult, enemyEndedRun, notes]
    }

    /** The row as the dict the script builds. */
    function AsDict(): Row {
      ZipRow(EncounterFieldnames, Values())
    }
  }

  /** The rows one document contributes. */
  datatype FileRows = FileRows(run: RunRow, encounters: seq<EncounterRow>)

  /**
   * Every run row and every encounter row has exactly the declared columns as
   * keys, each holding the value stored under that name, so writing it through
   * the column list neither fails nor loses a value.
   */
  lemma RowsMatchColumns(r: RunRow, e: EncounterRow)
    ensures r.AsDict().Keys == FieldSet(RunFieldnames)
    ensures Project(r.AsDict(), RunFieldnames) == Ok(r.Values())
    ensures e.AsDict().Keys == FieldSet(EncounterFieldnames)
    ensures Project(e.AsDict(), EncounterFieldnames) == Ok(e.Values())
    ensures forall k :: 0 <= k < |RunFieldnames| ==> r.AsDict()[RunFieldnames[k]] == r.Field(RunFieldnames[k])
    ensures forall k :: 0 <= k < |EncounterFieldnames| ==>
              e.AsDict()[EncounterFieldnames[k]] == e.Field(EncounterFieldnames[k])
  {
    assert Distinct(RunFieldnames);
    assert Distinct(EncounterFieldnames);
    ZipRowProjects(RunFieldnames, r.Values());
    ZipRowProjects(EncounterFieldnames, e.Values());
  }

  /** The run id: the document's `run_id` when truthy, otherwise the file stem. */
  function ResolveRunId(run: Object, stem: string): (runId: Json)
    ensures Truthy(Get(run, "run_id")) ==> runId == run["run_id"]
    ensures !Truthy(Get(run, "run_id")) ==> runId == Str(stem)
    ensures Truthy(runId) <==> Truthy(Get(run, "run_id")) || stem != ""
  {
    var given := Get(run, "run_id");
    if Truthy(given) then given else Str(stem)
  }

  /**
   * `total_battles`: any non-None stored value is kept (0 included); None
   * (absent or an explicit null) becomes the encounter count when there are
   * encounters, and stays None otherwise.
   */
  function ResolveTotalBattles(run: Object, count: nat): (total: Json)
    ensures !Get(run, "total_battles").Null? ==> total == run["total_battles"]
    ensures Get(run, "total_battles").Null? && count > 0 ==> total == Int(count)
    ensures total.Null? <==> Get(run, "total_battles").Null? && count == 0
  {
    var given := Get(run, "total_battles");
    if given.Null? && count > 0 then Int(count) else given
  }

  /**
   * What `for idx, enc in enumerate(encounters)` visits. A list gives its
   * elements. An empty dict or string gives nothing. A non-empty dict or
   * string gives str keys or characters, and `.get` on the first one raises
   * AttributeError. None, a bool or an int cannot be iterated: TypeError (for
   * these, `len(encounters)` raises the same TypeError one line earlier).
   */
  function IterItems(encounters: Json): (r: Result<seq<Json>>)
    ensures encounters.Arr? ==> r == Ok(encounters.items)
    ensures (encounters.Null? || encounters.Bool? || encounters.Int?) ==> r == Err(TypeError)
    ensures (encounters.Obj? || encounters.Str?) ==>
              r == if Truthy(encounters) then Err(AttributeError) else Ok([])
    ensures r.Ok? ==> (Truthy(encounters) <==> |r.value| > 0)
  {
    match encounters
    case Arr(xs) => Ok(xs)
    case Obj(m) => if m == map[] then Ok([]) else Err(AttributeError)
    case Str(s) => if s == "" then Ok([]) else Err(AttributeError)
    case _ => Err(TypeError)
  }

  /** The encounter id: the stored one when truthy, otherwise `{run_id}_{idx:03d}`. */
  function ResolveEncounterId(host: Host, runId: Json, enc: Object, idx: nat): (id: Json)
    ensures Truthy(Get(enc, "encounter_id")) ==> id == enc["encounter_id"]
    ensures !Truthy(Get(enc, "encounter_id")) ==>
              id == Str(SynthesizedEncounterId(PyStr(host.containerRepr, runId), idx))
    ensures !Truthy(Get(enc, "encounter_id")) ==>
              id.Str? && SplitEncounterId(id.s) == Some((PyStr(host.containerRepr, runId), idx))
  {
    var given := Get(enc, "encounter_id");
    if Truthy(given) then given
    else
      var runIdText := PyStr(host.containerRepr, runId);
      EncounterIdRoundTrip(runIdText, idx);
      Str(SynthesizedEncounterId(runIdText, idx))
  }

  /** `dt.isoformat() if dt else None`. */
  function IsoText(dt: Option<Stamp>): Json {
    match dt
    case Some(st) => Str(st.iso)
    case None => Null
  }

  /** The run row. The three session columns come from the start timestamp alone. */
  function MakeRunRow(runId: Json, run: Object, startDt: Option<Stamp>, endDt: Option<Stamp>, totalBattles: Json): (row: RunRow)
    ensures row.runId == runId && row.totalBattles == totalBattles
    ensures row.startTimestamp == IsoText(startDt) && row.endTimestamp == IsoText(endDt)
    ensures row.sessionDate.Null? <==> startDt.None?
    ensures row.sessionDayOfWeek.Null? <==> startDt.None?
    ensures row.timeOfDayBucket.Null? <==> startDt.None?
    ensures startDt.Some? ==>
              && row.sessionDate == Str(startDt.value.date)
              && row.sessionDayOfWeek == Int(startDt.value.weekday)
              && row.timeOfDayBucket == Str(HourBucket(startDt.value.hour))
    ensures row.result == Get(run, "result") && row.finalStage == Get(run, "final_stage")
    ensures row.finalBoss == Get(run, "final_boss") && row.starterSpecies == Get(run, "starter_species")
    ensures row.runTag == Get(run, "run_tag")
  {
    RunRow(
      runId := runId,
      startTimestamp := IsoText(startDt),
      endTimestamp := IsoText(endDt),
      result := Get(run, "result"),
      finalStage := Get(run, "final_stage"),
      finalBoss := Get(run, "final_boss"),
      starterSpecies := Get(run, "starter_species"),
      totalBattles := totalBattles,
      sessionDate := if startDt.Some? then Str(startDt.value.date) else Null,
      sessionDayOfWeek := if startDt.Some? then Int(startDt.value.weekday) else Null,
      timeOfDayBucket := match TimeOfDayBucket(startDt) case Some(b) => Str(b) case None => Null,
      runTag := Get(run, "run_tag"))
  }

  /** The encounter row for the encounter at position `idx`. */
  function MakeEncounterRow(host: Host, runId: Json, enc: Object, idx: nat): (row: EncounterRow)
    ensures row.runId == runId
    ensures row.encounterId == ResolveEncounterId(host, runId, enc, idx)
    ensures "battle_index" in enc ==> row.battleIndex == enc["battle_index"]
    ensures "battle_index" !in enc ==> row.battleIndex == Int(idx)
    ensures row.enemySpecies == Get(enc, "enemy_species") && row.enemyType1 == Get(enc, "enemy_type1")
    ensures row.enemyType2 == Get(enc, "enemy_type2") && row.enemyLevel == Get(enc, "enemy_level")
    ensures row.isBoss == Get(enc, "is_boss") && row.encounterResult == Get(enc, "encounter_result")
    ensures row.enemyEndedRun == Get(enc, "enemy_ended_run") && row.notes == Get(enc, "notes")
  {
    EncounterRow(
      encounterId := ResolveEncounterId(host, runId, enc, idx),
      runId := runId,
      battleIndex := GetOr(enc, "battle_index", Int(idx)),
      enemySpecies := Get(enc, "enemy_species"),
      enemyType1 := Get(enc, "enemy_type1"),
      enemyType2 := Get(enc, "enemy_type2"),
      enemyLevel := Get(enc, "enemy_level"),
      isBoss := Get(enc, "is_boss"),
      encounterResult := Get(enc, "encounter_result"),
      enemyEndedRun := Get(enc, "enemy_ended_run"),
      notes := Get(enc, "notes"))
  }

  /**
   * The encounter rows of one document, in list order; `.get` on an element
   * that is not a dict raises AttributeError.
   */
  function EncounterRows(host: Host, runId: Json, items: seq<Json>): (r: Result<seq<EncounterRow>>)
    ensures r.Ok? <==> forall j :: 0 <= j < |items| ==> items[j].Obj?
    ensures r.Err? ==> r.error == AttributeError
    ensures r.Ok? ==> |r.value| == |items|
    ensures r.Ok? ==> forall j :: 0 <= j < |items| ==> r.value[j] == MakeEncounterRow(host, runId, items[j].fields, j)
  {
    if forall j :: 0 <= j < |items| ==> items[j].Obj? then
      Ok(seq(|items|, j requires 0 <= j < |items| => MakeEncounterRow(host, runId, items[j].fields, j)))
    else Err(AttributeError)
  }

  /**
   * One iteration of the loop over files: load, resolve the run id, parse both
   * timestamps, resolve `total_battles`, build the run row, then the encounter
   * rows. The first exception raised is the result.
   */
  function NormalizeFile(host: Host, file: InputFile): (r: Result<FileRows>)
    ensures r.Ok? ==> forall j :: 0 <= j < |r.value.encounters| ==> r.value.encounters[j].runId == r.value.run.runId
  {
    match LoadRunFile(file.data)
    case Err(e) => Err(e)
    case Ok((run, encounters)) =>
      if !run.Obj? then Err(AttributeError)
      else
        var runId := ResolveRunId(run.fields, file.stem);
        match ParseTimestamp(host.fromIsoFormat, Get(run.fields, "start_timestamp"))
        case Err(e) => Err(e)
        case Ok(startDt) =>
          match ParseTimestamp(host.fromIsoFormat, Get(run.fields, "end_timestamp"))
          case Err(e) => Err(e)
          case Ok(endDt) =>
            match IterItems(encounters)
            case Err(e) => Err(e)
            case Ok(items) =>
              var totalBattles := ResolveTotalBattles(run.fields, |items|);
              var runRow := MakeRunRow(runId, run.fields, startDt, endDt, totalBattles);
              match EncounterRows(host, runId, items)
              case Err(e) => Err(e)
              case Ok(rows) => Ok(FileRows(runRow, rows))
  }

  /**
   * What a successfully processed file contributes: the run id rule, the
   * `total_battles` rule, and for each encounter, in order, its run id, its
   * `battle_index` (the stored value whenever the key is present, even null)
   * and its id rule.
   */
  lemma FileRowsFacts(host: Host, file: InputFile, run: Object, encounters: Json, fr: FileRows)
    requires LoadRunFile(file.data) == Ok((Obj(run), encounters))
    requires NormalizeFile(host, file) == Ok(fr)
    ensures IterItems(encounters).Ok?
    ensures |fr.encounters| == |IterItems(encounters).value|
    ensures fr.run.runId == if Truthy(Get(run, "run_id")) then run["run_id"] else Str(file.stem)
    ensures !Get(run, "total_battles").Null? ==> fr.run.totalBattles == run["total_battles"]
    ensures Get(run, "total_battles").Null? ==>
              fr.run.totalBattles == if |fr.encounters| > 0 then Int(|fr.encounters|) else Null
    ensures forall j :: 0 <= j < |fr.encounters| ==>
              var enc := IterItems(encounters).value[j];
              && enc.Obj?
              && fr.encounters[j].runId == fr.run.runId
              && fr.encounters[j].battleIndex == (if "battle_index" in enc.fields then enc.fields["battle_index"] else Int(j))
              && (Truthy(Get(enc.fields, "encounter_id")) ==> fr.encounters[j].encounterId == enc.fields["encounter_id"])
              && (!Truthy(Get(enc.fields, "encounter_id")) ==>
                    fr.encounters[j].encounterId == Str(SynthesizedEncounterId(PyStr(host.containerRepr, fr.run.runId), j)))
  {
  }

  /**
   * The session columns depend on the start timestamp alone: two documents
   * with the same stored `start_timestamp` get the same date, weekday and
   * bucket, and all three are None exactly when that value is falsy.
   */
  lemma SessionFieldsFromStartOnly(host: Host, f1: InputFile, f2: InputFile, run1: Object, run2: Object, fr1: FileRows, fr2: FileRows)
    requires LoadRunFile(f1.data).Ok? && LoadRunFile(f1.data).value.0 == Obj(run1)
    requires LoadRunFile(f2.data).Ok? && LoadRunFile(f2.data).value.0 == Obj(run2)
    requires NormalizeFile(host, f1) == Ok(fr1) && NormalizeFile(host, f2) == Ok(fr2)
    requires Get(run1, "start_timestamp") == Get(run2, "start_timestamp")
    ensures fr1.run.sessionDate == fr2.run.sessionDate
    ensures fr1.run.sessionDayOfWeek == fr2.run.sessionDayOfWeek
    ensures fr1.run.timeOfDayBucket == fr2.run.timeOfDayBucket
    ensures fr1.run.startTimestamp == fr2.run.startTimestamp
    ensures fr1.run.sessionDate.Null? <==> !Truthy(Get(run1, "start_timestamp"))
    ensures fr1.run.sessionDayOfWeek.Null? <==> !Truthy(Get(run1, "start_timestamp"))
    ensures fr1.run.timeOfDayBucket.Null? <==> !Truthy(Get(run1, "start_timestamp"))
  {
  }

  /**
   * A document is processed without an exception exactly when it is a dict,
   * its run section is a dict, both timestamps parse, and its encounter
   * section iterates over dicts only.
   */
  lemma FileSucceedsWhen(host: Host, file: InputFile)
    ensures NormalizeFile(host, file).Ok? <==>
              && file.data.Obj?
              && var (run, encounters) := LoadRunFile(file.data).value;
              && run.Obj?
              && ParseTimestamp(host.fromIsoFormat, Get(run.fields, "start_timestamp")).Ok?
              && ParseTimestamp(host.fromIsoFormat, Get(run.fields, "end_timestamp")).Ok?
              && IterItems(encounters).Ok?
              && forall j :: 0 <= j < |IterItems(encounters).value| ==> IterItems(encounters).value[j].Obj?
  {
  }
}
