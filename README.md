# json_to_csv: a verified model of the run/encounter normaliser

`json_to_csv.py` flattens per-run JSON documents into two CSV tables.
`runs.csv` gets one row per run. `encounters.csv` gets one row per encounter
of a run. This project models the logic between reading the documents and
writing the files:

- `parse_timestamp`: strip whitespace, drop one trailing `Z`, parse.
- `time_of_day_bucket`: classify the hour into one of four labels.
- The defaulting done by `load_run_file`.
- The loop of `main` over the documents. It builds one run row and one encounter row per encounter, then appends them to the two accumulating lists.
- The two column lists, and the projection of each row onto its column list when the tables are written.

Modules:

- `Wrappers` (`wrappers.dfy`): `Option`, plus `Result` over the three Python exception classes the script can raise (`AttributeError`, `TypeError`, `ValueError`).
- `JsonValues` (`json_values.dfy`): decoded JSON values and Python truthiness. It also has `dict.get` with and without a default (`Get`, `GetOr`) and `str()` of a value (`PyStr`).
- `Decimal` (`decimal.dfy`): decimal digits, and `{n:03d}` (`Pad3`) with its decoding.
- `Timestamp` (`timestamp.dfy`): Python's `str.strip` whitespace set, the `Z` handling, `parse_timestamp` and `time_of_day_bucket`.
- `Loader` (`loader.dfy`): the `data.get("run", {})` / `data.get("encounters", [])` defaults.
- `EncounterIds` (`encounter_ids.dfy`): the synthesised `f"{run_id}_{idx:03d}"` id and how to read it back.
- `TableWriter` (`table_writer.dfy`): the `DictWriter` projection of a row dict onto a column list.
  - A key outside the columns raises `ValueError`.
  - A missing column is an empty field.
  - `None` is written as an empty field.
- `Normalizer` (`normalizer.dfy`): the two column lists and the run and encounter row records. Also `NormalizeFile`, one iteration of the loop over files, with every branch and exception of the source in source order.
- `Etl` (`etl.dfy`): the loop of `main` itself.
  - `ProcessFile` appends one document's rows, with a `while` loop over the encounters. It is proved equal to `Append` of the document's `NormalizeFile` result to the accumulated tables.
  - `NormalizeBatch` runs the `for` loop over the documents. It is proved equal to `NormalizeAll`, the specification function `Accumulate` applied with the per-document step.
  - The batch lemmas are stated for any per-document step, so they hold whatever that step does.

Some library functions are parameters, carried by `Normalizer.Host`:

- `datetime.fromisoformat` is a partial function from text to a stamp. A stamp holds the hour (0..23), `date().isoformat()`, `isoweekday()` (1..7) and `isoformat()`.
- `repr` of a list or dict value is a function to text. It is used when such a value is a `run_id` and is formatted into an encounter id or a CSV field.

Three behaviours of the code that a reader might not expect are modelled as the code has them:

- A document that raises aborts the whole batch with that exception. Earlier documents are not isolated from it (`Etl.BatchFailsAtFirstBadFile`).
- A whitespace-only timestamp is truthy, so it is stripped to `""` and handed to the parser. It is not treated as absent.
- `total_battles` falls back to the encounter count when the stored value is `None`, whether the key is absent or holds an explicit null.

## Model

| member | source | states |
|---|---|---|
| Timestamp.HourBucket | json_to_csv.py:79-87 | every hour gets one of the four labels; Morning exactly for hours 5-11, Afternoon exactly for 12-16, Evening exactly for 17-21, Late Night exactly for 0-4 and 22-23 |
| Timestamp.TimeOfDayBucket | json_to_csv.py:75-87 | None exactly for a None datetime, otherwise the bucket of its hour |
| Timestamp.Strip | json_to_csv.py:67 | the result is the input minus its maximal leading and trailing run of Python whitespace, and it neither starts nor ends with whitespace |
| Timestamp.StripIdempotent | json_to_csv.py:67 | stripping twice is stripping once |
| Timestamp.Preprocess | json_to_csv.py:67-70 | the stripped text, minus its last character exactly when that character is 'Z' |
| Timestamp.PreprocessDropsOneZ | json_to_csv.py:69-70 | only one 'Z' is removed: a stripped text ending in "ZZ" still ends in 'Z' afterwards |
| Timestamp.PreprocessKeepsCleanText | json_to_csv.py:67-70 | trimmed text without a trailing 'Z' reaches the parser unchanged |
| Timestamp.PreprocessIgnoresPaddingAndZ | json_to_csv.py:67-70 | surrounding whitespace and one 'Z' suffix do not change what is parsed, also for an empty text and a text that itself ends in 'Z' |
| Timestamp.ParseTimestamp | json_to_csv.py:63-72 | None exactly for a falsy input; AttributeError for a truthy non-string; otherwise the parser's datetime for the preprocessed text, or ValueError when it rejects it |
| Loader.LoadRunFile | json_to_csv.py:90-97 | succeeds exactly for a dict document (AttributeError otherwise); present "run"/"encounters" values are returned unchanged, absent ones become {} and [] |
| JsonValues.Get | json_to_csv.py:118 | `.get(k)`: the stored value for a present key (even null), None for an absent key |
| JsonValues.GetOr | json_to_csv.py:162 | `.get(k, d)`: the stored value for a present key, d only for an absent key |
| JsonValues.PyStr | json_to_csv.py:157 | `str()` of a value: a string is itself; a non-negative int is its decimal digits without leading zeros, which decode back to it |
| Normalizer.ResolveRunId | json_to_csv.py:118-121 | the document's run_id when truthy, otherwise the file stem; the result is truthy exactly when the stored one is or the stem is non-empty |
| Normalizer.ResolveTotalBattles | json_to_csv.py:133-135 | any non-None stored value is kept, 0 included; None becomes the encounter count when there are encounters; the result is None exactly when the stored value is None and there are no encounters |
| Normalizer.IterItems | json_to_csv.py:134 | what `enumerate(encounters)` visits: a list gives its elements; an empty dict or string gives none; a non-empty dict or string raises AttributeError at the first `.get`; None, bool and int raise TypeError; the result is non-empty exactly when the section is truthy |
| Normalizer.ResolveEncounterId | json_to_csv.py:155-157 | a truthy stored id is kept verbatim; otherwise it is exactly `str(run_id) + "_" + {idx:03d}`, which reads back as (str(run_id), idx) |
| Normalizer.MakeRunRow | json_to_csv.py:126-150 | every run column: the run id, the iso text of both timestamps, the session columns (each None exactly when the start datetime is None, else its date, weekday and bucket), `total_battles`, and the stored values of the other keys |
| Normalizer.MakeEncounterRow | json_to_csv.py:153-171 | every encounter column: the resolved id, the run's run_id, battle_index (the stored value whenever the key is present, even null, else the position) and the stored values of the other keys |
| Normalizer.EncounterRows | json_to_csv.py:153-171 | succeeds exactly when every element is a dict (AttributeError otherwise), giving one row per element, in list order |
| Normalizer.RunRow.Values | json_to_csv.py:137-150 | one value per declared run column, each the value the dict stores under that column's name |
| Normalizer.EncounterRow.Values | json_to_csv.py:159-171 | one value per declared encounter column, each the value the dict stores under that column's name |
| Normalizer.NormalizeFile | json_to_csv.py:114-171 | one document's run row and encounter rows; every encounter row carries the run row's run_id |
| Normalizer.FileRowsFacts | json_to_csv.py:114-171 | a processed document yields one encounter row per encounter, in order. It also fixes the run_id rule, the total_battles rule and each encounter row's run_id, battle_index and id rule |
| Normalizer.SessionFieldsFromStartOnly | json_to_csv.py:129-131 | the session columns depend only on the stored start timestamp, and each of the three is None exactly when it is falsy |
| Normalizer.FileSucceedsWhen | json_to_csv.py:114-171 | a document is processed without an exception exactly when it is a dict, its run is a dict, both timestamps parse and its encounters iterate over dicts only |
| Normalizer.RowsMatchColumns | json_to_csv.py:137-201 | every run row and encounter row has exactly the declared column keys, each holding the value stored under that name, and projecting it onto its column list gives back all its values in column order |
| Decimal.Digits | json_to_csv.py:157 | the decimal text of n: non-empty, all digits, one digit exactly below 10, no leading zero unless n is 0 |
| Decimal.Pad3 | json_to_csv.py:157 | `{n:03d}`: all digits, of length max(3, number of digits of n) |
| Decimal.Pad3RoundTrip | json_to_csv.py:157 | the padded index decodes back to the index |
| Decimal.Pad3Injective | json_to_csv.py:157 | distinct indices give distinct padded texts |
| Decimal.Pad3Width | json_to_csv.py:157 | the padded index is exactly three characters exactly when the index is below 1000 |
| EncounterIds.SynthesizedEncounterId | json_to_csv.py:157 | the id is the run id text, '_', then digits that decode to the index |
| EncounterIds.SplitEncounterId | json_to_csv.py:157 | reading an id back gives a proper prefix followed by '_' |
| EncounterIds.EncounterIdRoundTrip | json_to_csv.py:157 | a synthesised id reads back as its run id text and index, even when the run id contains '_' |
| EncounterIds.SynthesizedIdsDistinct | json_to_csv.py:157 | distinct (run id, index) pairs never get the same synthesised id |
| TableWriter.ZipRow | json_to_csv.py:137-150 | the dict built from a column list has exactly those keys, each holding its value |
| TableWriter.Project | json_to_csv.py:203-213 | `DictWriter` row projection: ValueError exactly when the row has a key outside the columns, otherwise one value per column (None for a missing one) |
| TableWriter.Cell | json_to_csv.py:207 | None is written as an empty field, a string as itself |
| TableWriter.WriteTable | json_to_csv.py:203-213 | writing succeeds exactly when no row has an undeclared key, giving the header plus one line per row; field k of line i+1 is row i's value under column k as a CSV field, or empty when the row lacks that key |
| TableWriter.ProjectLossless | json_to_csv.py:203-213 | a row whose keys are exactly the columns projects without error, and the projection rebuilds the row |
| TableWriter.ZipRowProjects | json_to_csv.py:137-213 | projecting the dict built from the columns gives back its values, in order |
| Etl.ProcessFile | json_to_csv.py:114-171 | appending one document's rows to the accumulated lists: exactly `Append` of the document's result. Earlier rows are kept, then one run row and one encounter row per encounter are added in order, or the document's exception is returned |
| Etl.NormalizeBatch | json_to_csv.py:106-171 | the loop over the documents computes exactly `NormalizeAll`, the accumulation of the per-document results |
| Etl.FirstFailureAborts | json_to_csv.py:114-171 | once a document raises, the batch raises that exception whatever follows |
| Etl.BatchSucceedsIff | json_to_csv.py:114-171 | the batch succeeds exactly when every document is processed without an exception |
| Etl.BatchTables | json_to_csv.py:114-171 | a successful batch holds one run row per document in document order, and the documents' encounter rows concatenated in document order |
| Etl.BatchFailsAtFirstBadFile | json_to_csv.py:114-171 | a failed batch reports the exception of the first document that raised; every earlier document was processed without one |
| Etl.AppendingAFile | json_to_csv.py:114-171 | one more document leaves every earlier row unchanged and appends exactly its run row and its encounter rows |
| Etl.EncountersReferToRuns | json_to_csv.py:137-171 | when each document's encounter rows carry its run_id, every encounter row of the batch has a run row with the same run_id |
| Etl.EncounterRowsReferToRunRows | json_to_csv.py:137-171 | every encounter row the loop produces has a run row with the same run_id |
| Etl.TablesWriteCleanly | json_to_csv.py:174-213 | both tables are written through their column lists without an exception, each as a header plus one line per row |
| Etl.SingleEncounterScenario | json_to_csv.py:114-171 | a document with no run_id, no total_battles and one encounter without id or battle_index, in file `run_X`, yields run row `run_X` with total_battles 1, and encounter row `run_X_000` with battle_index 0 |

## Left out

- Reading the input directory is not modelled: `mkdir`, `glob`, the sorting of paths, `open` and `json.load`. The input is the ordered list of (file stem, decoded document) pairs.
- `datetime.fromisoformat`, `date().isoformat()`, `isoweekday()` and `isoformat()` are not modelled. They are calendar and formatting library code. The model receives them as the `Host.fromIsoFormat` parameter, whose stamps carry an hour in 0..23 and a weekday in 1..7.
- `repr` of a list or dict used as a `run_id` is not modelled. It is the `Host.containerRepr` parameter.
- CSV quoting, escaping and line endings are not modelled, and neither are the two `print` summaries. This is output plumbing; `TableWriter` covers only the projection of rows onto columns and the empty field for None.
- The early return when no files are found (json_to_csv.py:110-112) is not modelled. It is I/O control flow; for an empty list of documents the model gives two empty tables.
- JSON floats are not modelled. The JSON value type has null, bool, int, string, array and object.
- Python dict key order is not modelled. Rows are records whose column order comes from the column lists, and the CSV column order comes from those lists anyway.
- Team slots, the participant table and per-document error isolation are not modelled. None of them is present in `json_to_csv.py`.
- JsonValues.PyStr: the contract pins down only strings and non-negative ints. The text of None, booleans and negative ints is defined in its body but is not part of its contract.
