# VA use-case inventory analyzer: the incremental scoring batch

The analyzer reads an inventory of candidate AI use cases from a CSV file. It sends each new row's
description to a language-model scorer and writes one JSON scorecard per row to `results/<id>.json`.
It also keeps `processed_records.json`, a ledger of the Use Case IDs already processed, so that a re-run
only scores new rows. This project models that batch in Dafny and proves its properties:

- `wrappers.dfy`: `Option` and `Result`, which stand in for the source's exceptions.
- `json.dfy`: a parsed JSON value.
- `schema.dfy`: `json_schema`, the structured-output contract the scorer is held to. It is kept as a
  `Schema` value, with the JSON Schema validation rule for the keywords it uses. It is proved equal to a
  direct description of a valid response: exactly one key `opportunity`, holding exactly the five
  dimensions, each holding exactly a numeric `score` and a string `explanation`.
- `analysis_results.dfy`: the `AnalysisResult` record, `from_analysis`, `average_score` and `to_dict`.
  Also the step of `analyze_use_case` that parses the completion and builds the record.
- `main.py` is modelled by two files:
  - `main.dfy`: `list_csv_files`; the ledger as a class whose `document` field stands for the tracking
    file; the result store as a class whose `files` field stands for the results directory;
    `process_csv` as a method with the source's loop. The method is proved to equal `Run`, a fold of
    one-row steps.
  - `batch_laws.dfy`: what a run does, stated against definitions that look at each row on its own. It
    also proves the consequences (the ledger only grows while its re-reads succeed, a commit follows a
    successful score, a re-run is idempotent) and the behaviours of the code described below.

The collaborators of a batch are parameters (`Pipeline.Environment`): whether the snapshot read of the
tracking file before the row loop succeeds, and, indexed by row position:
- the scorer, which returns a scorecard or fails;
- whether the result file can be opened for that row;
- whether the tracking file can be re-read for that row's commit;
- whether the tracking file can be rewritten for that row.

The CSV rows are a given sequence of maps from column name to text, or `None` when `read_csv` raised.
The directory listing is likewise given, or `None` when `os.listdir` raised.

Seven behaviours of the code a reader may not expect:
- The set of processed IDs is read once, before the row loop (main.py:60), and never refreshed. A row
  whose ID repeats one committed earlier in the same batch is therefore scored, saved and committed
  again (`BatchLaws.RepeatedIdIsProcessedTwice`).
- `save_analysis_result` catches and logs its own errors (main.py:32-33), so a failed save is still
  followed by the ledger commit and counted (`BatchLaws.CommitDespiteFailedSave`). The file is opened
  before `to_json` runs, so a scorecard without a numeric average leaves an empty result file behind.
  That row is committed too (`BatchLaws.CommitWithEmptyResultFile`).
- `update_processed_records` also swallows a failed rewrite of the tracking file, and the row is still
  counted.
- `update_processed_records` re-reads the tracking file through `get_processed_records` (main.py:49),
  which turns a read error into the empty set (main.py:42-44). When that re-read fails but the rewrite
  succeeds, the file is rewritten holding only the new ID, and every ID recorded before is lost
  (`Pipeline.FailedRereadDropsIds`, `BatchLaws.FailedRereadForgetsEarlierIds`). The ledger laws that
  need the old IDs to survive therefore assume that every commit's re-read succeeds
  (`BatchLaws.RereadsSucceed`).
- The snapshot read before the loop goes through the same `get_processed_records` (main.py:60,
  42-44). When it fails, the snapshot is empty and every row with an ID is scored, saved, committed and
  counted again (`BatchLaws.FailedSnapshotRescoresEverything`).
- When the completion request itself raises (src/analysis/analysis.py:14), the handler's second log
  line (src/analysis/analysis.py:65) reads `completion`, which was never assigned. So
  `analyze_use_case` raises `UnboundLocalError` in place of the original error. The per-row handler
  (main.py:92-93) catches either, so the model's `CallFailed` stands for both.
- The code reports only the number of newly processed rows (main.py:95), not counts of skipped or
  failed rows. `ProcessCsv` returns that number.

## Model

| member | source | states |
|---|---|---|
| `Schema.Conforms` | schema.py:1-95 | the JSON Schema rule that `json_schema` (`Schema.ResponseSchema`, kept as data) is applied by: a conforming value has the JSON type its schema names, and a conforming object holds every `required` key |
| `Schema.DimensionConforms` | schema.py:7-21 | a value passes a dimension's schema iff it is an object with exactly the keys `score` and `explanation`, `score` a number and `explanation` a string |
| `Schema.OpportunityConforms` | schema.py:4-91 | a value passes the `opportunity` schema iff it is an object with exactly the five dimension keys, each holding a valid dimension |
| `Schema.ResponseConforms` | schema.py:1-95 | a response passes `json_schema` iff it is an object whose only key is `opportunity` and that holds a valid opportunity |
| `AnalysisResults.FromAnalysis` | analysis_results.py:29-47 | succeeds iff every key it subscripts is present: `opportunity` and the five dimensions. On success the description is the input description, the five fields are the five entries of `opportunity`, and the token counts and model are copied unchanged from the completion |
| `AnalysisResults.ValidResponseHasAnalysisKeys` | analysis_results.py:33-41 | every response that passes the schema has all the keys `from_analysis` reads |
| `AnalysisResults.ScoreOf` | analysis_results.py:53-57 | `d["score"]` is usable as a number iff `d` is an object whose `score` is a number, and then it is that number |
| `AnalysisResults.AllScores` | analysis_results.py:52-58 | the list of scores exists iff every dimension has a numeric score, and it then has one entry per dimension, equal to that dimension's score |
| `AnalysisResults.AverageScore` | analysis_results.py:49-59 | `average_score` is defined exactly when each of the five dimensions has a numeric `score` |
| `AnalysisResults.AverageScoreLaw` | analysis_results.py:49-59 | `average_score` is defined iff all five scores are numbers, and it equals their sum divided by 5 |
| `AnalysisResults.AverageScoreBounds` | analysis_results.py:59 | when every score lies in [low, high], so does the average |
| `AnalysisResults.ToDict` | analysis_results.py:61-82 | `to_dict` fails exactly when `average_score` fails. Otherwise it has the fixed layout: top-level keys exactly `description`, `scores`, `usage` and `metadata`, and fixed key sets and value types in each section |
| `AnalysisResults.ToDictContents` | analysis_results.py:63-82 | `description` is the record's description. `scores` holds the five dimension objects and `average_score` equal to the property. `usage` mirrors the three token counts. `metadata` holds the timestamp and `model` equal to `model_used` |
| `AnalysisResults.WrittenAverageIsConsistent` | analysis_results.py:65-72 | reading a written document back gives five scores, and its `average_score` is their mean |
| `AnalysisResults.ValidResponseIsRecorded` | analysis_results.py:30-47 | for a response that passes the schema, `from_analysis` succeeds and `to_dict` succeeds, and the document's five score entries are the response's five dimension objects |
| `AnalysisResults.AnalyzeUseCase` | src/analysis/analysis.py:54-66 | the analysis succeeds iff the call returned, its content parsed as JSON, and the parsed value has the keys `from_analysis` reads. A failed call and unparsable content give distinct errors, and a result keeps the description and the call's model |
| `AnalysisResults.ConformingCompletionIsAnalyzed` | src/analysis/analysis.py:45-59 | a completion whose content passes the strict schema is always turned into a recorded scorecard |
| `Pipeline.CsvEntries` | main.py:14 | the kept entries are exactly the listed names ending in `.csv`, and there are no more of them than entries |
| `Pipeline.ListCsvFiles` | main.py:10-22 | a listing that raised gives the empty list; otherwise the result holds exactly the `.csv` entries |
| `Pipeline.CsvEntriesAppend` | main.py:14 | the filter keeps listing order: filtering a concatenation concatenates the filtered parts |
| `Pipeline.ListCsvFilesExamples` | tests/test_main.py:26-36 | `["file1.csv", "file2.csv", "file3.txt"]` gives the two `.csv` names in order; a listing without `.csv` names gives `[]` |
| `Pipeline.Load` | main.py:35-44 | a missing or unreadable tracking file reads as the empty set; a stored one reads as its IDs |
| `Pipeline.Commit` | main.py:46-54 | a failed rewrite leaves the ledger unchanged. A successful one leaves it as the old ledger plus the ID when the re-read succeeds, and as the ID alone when the re-read fails |
| `Pipeline.CommitGrowsIdempotently` | main.py:49-52 | a commit whose re-read succeeds never removes an ID; a successful rewrite records the ID; a failed re-read leaves only the ID; committing the same ID twice, with the same re-read and rewrite outcomes, gives the same file as once |
| `Pipeline.FailedRereadDropsIds` | main.py:42-52 | committing UC1 to the ledger `["UC0"]` gives `{"UC1"}` when the re-read fails and `{"UC0", "UC1"}` when it succeeds |
| `Pipeline.Ledger.Processed` | main.py:35-44 | `get_processed_records` returns what the tracking file reads as, the empty set when it is missing or unreadable |
| `Pipeline.Ledger.Add` | main.py:46-54 | `update_processed_records` re-reads the file (the empty set when that read fails), adds the ID and rewrites the file; the new document is `Commit` of the old one |
| `Pipeline.WrittenFile` | main.py:29-30 | an opened result file holds the `to_dict` document, or stays empty when `to_json` raises |
| `Pipeline.SaveFile` | main.py:24-33 | saving creates or overwrites exactly the ID's file when the file opens, and leaves every other file alone. When the file does not open, nothing changes |
| `Pipeline.ResultStore.Save` | main.py:24-33 | opens (truncates) the ID's file, then writes the document into it; the new store is `SaveFile` of the old one |
| `Pipeline.Classify` | main.py:71-86 | a row is dropped for a missing or empty ID, for an ID in the snapshot, or for a missing text column, in that order. Otherwise it is scored with the input exactly `purpose + " " + outputs` |
| `Pipeline.Step` | main.py:70-93 | one loop iteration: a row a skip rule drops, or whose scoring raised, changes nothing; a scored row is saved, committed and counted once |
| `Pipeline.Run` | main.py:69-93 | the row loop in order; the count never decreases and grows by at most one per row |
| `Pipeline.Snapshot` | main.py:60 | the snapshot is the tracking file's IDs when the read succeeds, and the empty set when it fails |
| `Pipeline.ProcessCsv` | main.py:56-98 | a CSV that cannot be read changes nothing and counts 0. Otherwise the tracking file, the result files and the count are those of `Run` over the rows, with the snapshot read once before the loop (`Snapshot`, empty when that read fails) |
| `BatchLaws.RunLedger` | main.py:60-90 | when every commit's re-read succeeds, the ledger after a run holds exactly the old IDs plus the IDs of the rows that were scored and whose rewrite succeeded |
| `BatchLaws.RunLedgerBound` | main.py:42-90 | whatever the re-reads do, the ledger after a run holds no ID outside the old IDs and the committed ones |
| `BatchLaws.RunCount` | main.py:67-90 | the count is exactly the number of rows scored successfully |
| `BatchLaws.RunResultKeys` | main.py:86-88 | the result files after a run are the old ones plus those of the scored rows whose file opened; every other file is unchanged |
| `BatchLaws.RunResultContents` | main.py:86-88 | each saved ID's file holds what the last row saving that ID wrote |
| `BatchLaws.SavedFileCarriesDescription` | main.py:86-88 | when the scorer is `analyze_use_case` over some completion and clock, a saved document's `description` is the row's `purpose + " " + outputs` |
| `BatchLaws.LedgerOnlyGrows` | main.py:49-52 | when every commit's re-read succeeds, the ledger after a run contains the ledger before it |
| `BatchLaws.CommitFollowsScore` | main.py:71-89 | an ID a run adds to the ledger belongs to a row that had an ID outside the snapshot and was scored successfully |
| `BatchLaws.DroppedRowLeavesNoTrace` | main.py:71-93 | an ID none of whose rows was scored successfully gains neither a ledger entry nor a result file, and its old file is untouched; when the re-reads succeed, an old ledger entry for it remains too |
| `BatchLaws.NothingScoredIsIdentity` | main.py:69-93 | a run in which no row passes the skip rules changes nothing |
| `BatchLaws.RerunProcessesNothing` | main.py:60-90 | take a first run whose snapshot is any part of the ledger, so a failed snapshot read (`{}`) is covered. Suppose every row that reached the scorer in it was scored and committed after a successful re-read. Then a second run over the same rows changes nothing and counts 0, whatever its scorer and file outcomes do, provided the second run's snapshot read succeeds |
| `BatchLaws.RepeatedIdIsProcessedTwice` | main.py:60-78 | the snapshot is not refreshed, so the same new row appearing twice in one batch is processed and counted twice |
| `BatchLaws.CommitDespiteFailedSave` | main.py:24-33 | a row whose result file cannot be opened is still committed and counted, and it has no result file |
| `BatchLaws.CommitWithEmptyResultFile` | main.py:26-33 | a scorecard without a numeric average leaves an empty result file that is nonetheless followed by a commit |
| `BatchLaws.FailedRereadForgetsEarlierIds` | main.py:42-90 | a batch that commits UC1 over the ledger `["UC0"]` with a failed re-read leaves the ledger holding UC1 alone, while still counting the row |
| `BatchLaws.FailedSnapshotRescoresEverything` | main.py:42-90 | when the snapshot read fails over a ledger already holding UC1 and UC2, both rows are scored and counted again |
| `BatchLaws.ExampleRowsClassified` | main.py:71-86 | of the rows UC1, a row with an empty ID, and UC2, the first and third are scored with the joined descriptions and the second is dropped |
| `BatchLaws.ExampleBatch` | main.py:56-95 | with an empty ledger and no failures, UC1 and UC2 are written and committed and the count is 2 |
| `BatchLaws.ExampleRerun` | main.py:56-95 | running the same batch again processes nothing |
| `BatchLaws.ExampleBatchWithFailedScore` | main.py:87-93 | when scoring UC2 raises, only UC1 is written and committed, and the count is 1 |

## Left out

- The remote completion call, the prompt text, the model choice and the client setup
  (src/analysis/analysis.py:10-53, src/config/config.py). The scorer is the abstract
  `Environment.analyze`. `AnalyzeUseCase` models only what happens to the completion once it has
  returned.
- CSV parsing (src/utils/utils.py). Rows are given as maps from column name to text. The `None` cells
  `csv.DictReader` produces for short rows are not modelled; in the source, such a cell makes the
  description concatenation raise, which the per-row handler catches.
- File-system and text details. `os.makedirs`, paths, and IDs containing path separators are not
  modelled. The text of `json.dumps` and `to_json`'s indent are not modelled either: a result file
  holds the `to_dict` value itself.
- I/O failures are modelled at one point each. Opening a result file either succeeds or fails before
  anything happens; an I/O error while writing an opened file is not modelled separately. Rewriting
  the tracking file either succeeds or leaves it as it was. A rewrite that truncates the file and then
  fails is not modelled. The re-read inside a commit either returns what the file holds or fails and
  returns the empty set.
- BatchLaws.RunLedger assumes every commit's re-read succeeds (`BatchLaws.RereadsSucceed`). Without that
  assumption only `BatchLaws.RunLedgerBound` holds, and `BatchLaws.FailedRereadForgetsEarlierIds` shows
  the IDs that are lost.
- BatchLaws.LedgerOnlyGrows assumes the same, and fails without it: see
  `BatchLaws.FailedRereadForgetsEarlierIds`.
- BatchLaws.RerunProcessesNothing assumes that the first run's commits re-read the file successfully.
  After a failed re-read, the second run processes again the rows whose IDs were lost. It also assumes
  that the second run's snapshot read succeeds. When that read fails, the second run scores every row
  again (`BatchLaws.FailedSnapshotRescoresEverything`). The first run's snapshot may be any part of the
  ledger, so a first run whose snapshot read failed is covered.
- Pipeline.LedgerDocument keeps the tracking file's JSON array as the set of its elements. The order
  and duplicates of the array are not modelled. The model has no document other than a missing file,
  an unreadable one, or a set of IDs. In the source, `set(json.load(f))` (main.py:40) accepts any
  iterable JSON value without raising: a JSON object reads as the set of its keys, and a JSON string as
  the set of its characters. Such files are not modelled.
- AnalysisResults.ScoreOf treats a JSON boolean score as not a number, whereas Python's `sum` would
  count `true` as 1. Such a score cannot pass the schema.
- Floating point. Scores and the average are exact `real`s, and the token counts are `int`s written as
  numbers.
- The clock. `datetime.now()` is the `timestamp` parameter of `FromAnalysis`, already in its ISO-8601
  form.
- Logging throughout, and the script's entry point (main.py:100-105).
- tests/test_main.py:38-57 expects `json.dump(..., indent=4)`, which `save_analysis_result` does not
  call, so it is not taken as evidence of behaviour.
