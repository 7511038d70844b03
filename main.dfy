/**
 * The incremental batch driver of main.py: the CSV-file listing filter, the ledger of
 * processed Use Case IDs, the result store, and `process_csv`, which scores every new
 * row of an inventory once, in order, isolating per-row failures.
 *
 * The files are fields of two small classes; the remote scorer and the outcome of each
 * file write are supplied by an `Environment`.
 */
module Pipeline {
  import opened Wrappers
  import opened Json
  import opened AnalysisResults

  // ---------------------------------------------------------------- list_csv_files

  predicate EndsWith(s: string, suffix: string) {
    |suffix| <= |s| && s[|s| - |suffix|..] == suffix
  }

  /** The entries of a directory listing whose name ends in ".csv", in listing order. */
  function CsvEntries(entries: seq<string>): (files: seq<string>)
    ensures |files| <= |entries|
    ensures forall f :: f in files <==> f in entries && EndsWith(f, ".csv")
  {
    if entries == [] then []
    else if EndsWith(entries[0], ".csv") then [entries[0]] + CsvEntries(entries[1..])
    else CsvEntries(entries[1..])
  }

  /** `list_csv_files`: `listing` is None when `os.listdir` raised, and the result is then empty. */
  function ListCsvFiles(listing: Option<seq<string>>): (files: seq<string>)
    ensures listing.None? ==> files == []
    ensures listing.Some? ==> forall f :: f in files <==> f in listing.value && EndsWith(f, ".csv")
  {
    match listing
    case None => []
    case Some(entries) => CsvEntries(entries)
  }

  /** The filter keeps listing order: filtering a concatenation concatenates the filtered parts. */
  lemma {:induction false} CsvEntriesAppend(a: seq<string>, b: seq<string>)
    ensures CsvEntries(a + b) == CsvEntries(a) + CsvEntries(b)
  {
    if a == [] {
      assert a + b == b;
    } else {
      assert (a + b)[0] == a[0] && (a + b)[1..] == a[1..] + b;
      CsvEntriesAppend(a[1..], b);
    }
  }

  lemma ListCsvFilesExamples()
    ensures ListCsvFiles(Some(["file1.csv", "file2.csv", "file3.txt"])) == ["file1.csv", "file2.csv"]
    ensures ListCsvFiles(Some(["file1.txt", "file2.pdf"])) == []
  {
    assert EndsWith("file1.csv", ".csv") && EndsWith("file2.csv", ".csv");
    assert !EndsWith("file3.txt", ".csv") by { assert "file3.txt"[5..] != ".csv"; }
    assert !EndsWith("file1.txt", ".csv") by { assert "file1.txt"[5..] != ".csv"; }
    assert !EndsWith("file2.pdf", ".csv") by { assert "file2.pdf"[5..] != ".csv"; }
  }

  // ---------------------------------------------------------------- the ledger

  /**
   * The tracking file processed_records.json. Its JSON array is kept as the set of its
   * elements, which is all `get_processed_records` makes of it.
   */
  datatype LedgerDocument = Missing | Unreadable | Stored(ids: set<string>)

  /** What `get_processed_records` returns for a given tracking file. */
  function Load(document: LedgerDocument): (ids: set<string>)
    ensures document.Missing? || document.Unreadable? ==> ids == {}
    ensures document.Stored? ==> ids == document.ids
  {
    match document
    case Stored(ids) => ids
    case _ => {}
  }

  /**
   * The tracking file after `update_processed_records(id)`. The file is first re-read
   * through `get_processed_records`; `rereads` tells whether that read succeeds (a failed
   * read is logged and yields the empty set). `writes` tells whether rewriting the file
   * succeeds (a failure is logged and leaves the file as it was).
   */
  function Commit(document: LedgerDocument, id: string, rereads: bool, writes: bool): (after: LedgerDocument)
    ensures Load(after) == if !writes then Load(document) else if rereads then Load(document) + {id} else {id}
    ensures writes ==> after.Stored?
  {
    if writes then Stored((if rereads then Load(document) else {}) + {id}) else document
  }

  /**
   * A commit whose re-read succeeds never removes an ID; a commit whose rewrite
   * succeeds records the ID; one whose re-read fails but whose rewrite succeeds leaves
   * only the ID; and repeating a commit changes nothing.
   */
  lemma CommitGrowsIdempotently(document: LedgerDocument, id: string, rereads: bool, writes: bool)
    ensures rereads ==> Load(document) <= Load(Commit(document, id, rereads, writes))
    ensures writes ==> id in Load(Commit(document, id, rereads, writes))
    ensures writes && !rereads ==> Load(Commit(document, id, rereads, writes)) == {id}
    ensures Commit(Commit(document, id, rereads, writes), id, rereads, writes) == Commit(document, id, rereads, writes)
  {
  }

  /** A failed re-read drops every ID recorded before: `["UC0"]` becomes `["UC1"]`. */
  lemma FailedRereadDropsIds()
    ensures Load(Commit(Stored({"UC0"}), "UC1", false, true)) == {"UC1"}
    ensures Load(Commit(Stored({"UC0"}), "UC1", true, true)) == {"UC0", "UC1"}
  {
  }

  class Ledger {
    var document: LedgerDocument

    constructor (document: LedgerDocument)
      ensures this.document == document
    {
      this.document := document;
    }

    /** `get_processed_records`. */
    method Processed() returns (ids: set<string>)
      ensures ids == Load(document)
    {
      match document {
        case Stored(stored) => ids := stored;
        case _ => ids := {};
      }
    }

    /** `update_processed_records`: re-read the file, add `id`, rewrite the file. */
    method Add(id: string, rereads: bool, writes: bool)
      modifies this
      ensures document == Commit(old(document), id, rereads, writes)
      ensures rereads ==> Load(document) == if writes then Load(old(document)) + {id} else Load(old(document))
    {
      var processed: set<string> := {};
      if rereads {
        processed := Processed();
      }
      processed := processed + {id};
      if writes {
        document := Stored(processed);
      }
    }
  }

  // ---------------------------------------------------------------- the result store

  /**
   * A file results/<id>.json: `Empty` when it was opened for writing but `to_json`
   * raised before anything was written.
   */
  datatype ResultFile = Empty | Document(content: Value)

  /** The file `save_analysis_result` leaves once it has opened it. */
  function WrittenFile(result: AnalysisResult): (file: ResultFile)
    ensures file.Document? <==> ToDict(result).Some?
    ensures file.Document? ==> file.content == ToDict(result).value
  {
    match ToDict(result)
    case Some(doc) => Document(doc)
    case None => Empty
  }

  /**
   * The result files after `save_analysis_result(id, result)`; `opens` tells whether
   * creating the directory and opening the file succeed. Every failure is logged and
   * swallowed.
   */
  function SaveFile(files: map<string, ResultFile>, id: string, result: AnalysisResult, opens: bool)
    : (after: map<string, ResultFile>)
    ensures after.Keys == if opens then files.Keys + {id} else files.Keys
    ensures forall other :: other in files && other != id ==> after[other] == files[other]
    ensures opens ==> after[id] == WrittenFile(result)
    ensures !opens ==> after == files
  {
    if opens then files[id := WrittenFile(result)] else files
  }

  class ResultStore {
    var files: map<string, ResultFile>

    constructor (files: map<string, ResultFile>)
      ensures this.files == files
    {
      this.files := files;
    }

    /** `save_analysis_result`: open results/<id>.json for writing, then write `to_json()` into it. */
    method Save(id: string, result: AnalysisResult, opens: bool)
      modifies this
      ensures files == SaveFile(old(files), id, result, opens)
    {
      if opens {
        files := files[id := Empty];
        var doc := ToDict(result);
        if doc.Some? {
          files := files[id := Document(doc.value)];
        }
      }
    }
  }

  // ---------------------------------------------------------------- process_csv

  const IdColumn := "Use Case ID"
  const PurposeColumn := "Purpose and Benefits"
  const OutputsColumn := "AI System Outputs"

  /** One CSV row, as `csv.DictReader` yields it: column name to cell text. */
  type Row = map<string, string>

  /** What `process_csv` does with a row, decided before the scorer is called. */
  datatype RowDecision =
    | MissingId
    | AlreadyProcessed(id: string)
    | MissingFields(id: string)
    | Score(id: string, description: string)

  predicate HasId(row: Row) {
    IdColumn in row && row[IdColumn] != ""
  }

  /** The skip rules of `process_csv`, checked in main.py's order against the batch snapshot. */
  function Classify(row: Row, snapshot: set<string>): (d: RowDecision)
    ensures d.MissingId? <==> !HasId(row)
    ensures d.AlreadyProcessed? <==> HasId(row) && row[IdColumn] in snapshot
    ensures d.Score? <==>
      HasId(row) && row[IdColumn] !in snapshot && PurposeColumn in row && OutputsColumn in row
    ensures !d.MissingId? ==> d.id == row[IdColumn]
    ensures d.Score? ==> d.description == row[PurposeColumn] + " " + row[OutputsColumn]
  {
    if !HasId(row) then MissingId
    else if row[IdColumn] in snapshot then AlreadyProcessed(row[IdColumn])
    else if !(PurposeColumn in row && OutputsColumn in row) then MissingFields(row[IdColumn])
    else Score(row[IdColumn], row[PurposeColumn] + " " + row[OutputsColumn])
  }

  /**
   * The collaborators of one batch: whether the snapshot read of the tracking file
   * before the loop succeeds, and, indexed by row position, the scorer
   * (`analyze_use_case`) for the row's description, whether the result file can be
   * opened, and whether the tracking file can be re-read and rewritten for that row.
   */
  datatype Environment = Environment(
    snapshotReads: bool,
    analyze: (nat, string) -> Result<AnalysisResult, AnalysisError>,
    saveOpens: nat -> bool,
    ledgerRereads: nat -> bool,
    ledgerWrites: nat -> bool)

  /** Row `index` gets past the skip rules and the scorer returns a result for it. */
  predicate Succeeds(row: Row, index: nat, snapshot: set<string>, env: Environment) {
    var d := Classify(row, snapshot);
    d.Score? && env.analyze(index, d.description).Success?
  }

  /** The state a batch changes: the tracking file, the result files and the `new_records` counter. */
  datatype World = World(ledger: LedgerDocument, results: map<string, ResultFile>, newRecords: nat)

  /**
   * One iteration of the row loop. A skipped row, and a row whose scoring raises
   * (caught by the per-row handler), change nothing; otherwise the result is saved, the
   * ID committed and the row counted, whatever the save and the commit did.
   */
  function Step(w: World, row: Row, index: nat, snapshot: set<string>, env: Environment): (after: World)
    ensures !Succeeds(row, index, snapshot, env) ==> after == w
    ensures Succeeds(row, index, snapshot, env) ==>
      && after.newRecords == w.newRecords + 1
      && after.ledger == Commit(w.ledger, row[IdColumn], env.ledgerRereads(index), env.ledgerWrites(index))
      && after.results ==
           SaveFile(w.results, row[IdColumn], env.analyze(index, Classify(row, snapshot).description).value,
                    env.saveOpens(index))
  {
    match Classify(row, snapshot)
    case Score(id, description) =>
      (match env.analyze(index, description)
       case Success(result) =>
         World(
           Commit(w.ledger, id, env.ledgerRereads(index), env.ledgerWrites(index)),
           SaveFile(w.results, id, result, env.saveOpens(index)),
           w.newRecords + 1)
       case Failure(_) => w)
    case _ => w
  }

  /** The row loop over `rows`, in order, starting from `init`; it counts at most one per row. */
  function Run(init: World, rows: seq<Row>, snapshot: set<string>, env: Environment): (final: World)
    ensures init.newRecords <= final.newRecords <= init.newRecords + |rows|
    decreases |rows|
  {
    if rows == [] then init
    else
      var k := |rows| - 1;
      Step(Run(init, rows[..k], snapshot, env), rows[k], k, snapshot, env)
  }

  /**
   * The snapshot `process_csv` takes before the loop: `get_processed_records` turns a
   * failed read into the empty set.
   */
  function Snapshot(document: LedgerDocument, env: Environment): (ids: set<string>)
    ensures env.snapshotReads ==> ids == Load(document)
    ensures !env.snapshotReads ==> ids == {}
  {
    if env.snapshotReads then Load(document) else {}
  }

  /**
   * `process_csv`. `source` is what `read_csv` produced (None when it raised, which the
   * outer handler logs); the snapshot of processed IDs is read once, before the loop.
   * Returns the `new_records` count the source logs at the end.
   */
  method ProcessCsv(source: Option<seq<Row>>, ledger: Ledger, store: ResultStore, env: Environment)
    returns (newRecords: nat)
    modifies ledger, store
    ensures source.None? ==>
      newRecords == 0 && ledger.document == old(ledger.document) && store.files == old(store.files)
    ensures source.Some? ==>
      var w := Run(World(old(ledger.document), old(store.files), 0), source.value, Snapshot(old(ledger.document), env), env);
      ledger.document == w.ledger && store.files == w.results && newRecords == w.newRecords
  {
    newRecords := 0;
    if source.None? {
      return;
    }
    var rows := source.value;
    var snapshot: set<string> := {};
    if env.snapshotReads {
      snapshot := ledger.Processed();
    }
    if |rows| == 0 {
      return;
    }
    ghost var init := World(ledger.document, store.files, 0);
    for index := 0 to |rows|
      invariant World(ledger.document, store.files, newRecords) == Run(init, rows[..index], snapshot, env)
    {
      assert rows[..index + 1][..index] == rows[..index];
      var row := rows[index];
      ghost var before := World(ledger.document, store.files, newRecords);
      assert Run(init, rows[..index + 1], snapshot, env) == Step(before, row, index, snapshot, env);
      if !(IdColumn in row) || row[IdColumn] == "" {
        continue;
      }
      var id := row[IdColumn];
      if id in snapshot {
        continue;
      }
      if !(PurposeColumn in row && OutputsColumn in row) {
        continue;
      }
      var description := row[PurposeColumn] + " " + row[OutputsColumn];
      var outcome := env.analyze(index, description);
      if outcome.Failure? {
        continue;
      }
      store.Save(id, outcome.value, env.saveOpens(index));
      ledger.Add(id, env.ledgerRereads(index), env.ledgerWrites(index));
      newRecords := newRecords + 1;
      assert Succeeds(row, index, snapshot, env);
    }
    assert rows[..|rows|] == rows;
  }
}
