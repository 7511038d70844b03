/**
 * What one run of `process_csv` does, stated against reference definitions that look
 * at each row on its own: which IDs end up in the tracking file, which result files are
 * written and with what, how many rows are counted. Then the consequences: the ledger
 * only grows while its re-reads succeed, a commit follows a successful score, and a
 * re-run is idempotent. Last, the behaviours of the code a reader may not expect: the
 * stale snapshot, commits after a failed save, and a failed re-read that forgets IDs.
 */
module BatchLaws {
  import opened Wrappers
  import opened Json
  import opened AnalysisResults
  import opened Pipeline

  /** Positions of the rows that are scored successfully, that is, counted. */
  function ScoredRows(rows: seq<Row>, snapshot: set<string>, env: Environment): set<nat> {
    set i: nat | i < |rows| && Succeeds(rows[i], i, snapshot, env)
  }

  /** IDs of the rows that are scored successfully and whose commit rewrites the tracking file. */
  function CommittedIds(rows: seq<Row>, snapshot: set<string>, env: Environment): set<string> {
    set i: nat | i < |rows| && Succeeds(rows[i], i, snapshot, env) && env.ledgerWrites(i) :: rows[i][IdColumn]
  }

  /** IDs of the rows that are scored successfully and whose result file opens. */
  function SavedIds(rows: seq<Row>, snapshot: set<string>, env: Environment): set<string> {
    set i: nat | i < |rows| && Succeeds(rows[i], i, snapshot, env) && env.saveOpens(i) :: rows[i][IdColumn]
  }

  /** Row `i` writes the result file of `id`. */
  predicate SavesAt(rows: seq<Row>, i: nat, id: string, snapshot: set<string>, env: Environment)
    requires i < |rows|
  {
    Succeeds(rows[i], i, snapshot, env) && env.saveOpens(i) && rows[i][IdColumn] == id
  }

  /** The file row `i` leaves behind: what `to_json` makes of the scorer's result for it. */
  function FileOfRow(row: Row, i: nat, snapshot: set<string>, env: Environment): ResultFile
    requires Succeeds(row, i, snapshot, env)
  {
    WrittenFile(env.analyze(i, Classify(row, snapshot).description).value)
  }

  /** Every commit of the run that rewrites the tracking file re-read it successfully first. */
  predicate RereadsSucceed(rows: seq<Row>, snapshot: set<string>, env: Environment) {
    forall i: nat :: i < |rows| && Succeeds(rows[i], i, snapshot, env) && env.ledgerWrites(i) ==> env.ledgerRereads(i)
  }

  lemma PrefixOfPrefix(rows: seq<Row>)
    requires rows != []
    ensures forall i :: 0 <= i < |rows| - 1 ==> rows[..|rows| - 1][i] == rows[i]
  {
  }

  /**
   * While its re-reads succeed, the tracking file ends up holding what it held before
   * plus the committed IDs, and nothing else.
   */
  lemma {:induction false} RunLedger(init: World, rows: seq<Row>, snapshot: set<string>, env: Environment)
    requires RereadsSucceed(rows, snapshot, env)
    ensures Load(Run(init, rows, snapshot, env).ledger) == Load(init.ledger) + CommittedIds(rows, snapshot, env)
    decreases |rows|
  {
    if rows != [] {
      var k := |rows| - 1;
      var prefix := rows[..k];
      PrefixOfPrefix(rows);
      RunLedger(init, prefix, snapshot, env);
      var last := if Succeeds(rows[k], k, snapshot, env) && env.ledgerWrites(k) then {rows[k][IdColumn]} else {};
      assert CommittedIds(rows, snapshot, env) == CommittedIds(prefix, snapshot, env) + last;
    }
  }

  /** Whatever the re-reads do, the tracking file never holds an ID that was neither there nor committed. */
  lemma {:induction false} RunLedgerBound(init: World, rows: seq<Row>, snapshot: set<string>, env: Environment)
    ensures Load(Run(init, rows, snapshot, env).ledger) <= Load(init.ledger) + CommittedIds(rows, snapshot, env)
    decreases |rows|
  {
    if rows != [] {
      var k := |rows| - 1;
      var prefix := rows[..k];
      RunLedgerBound(init, prefix, snapshot, env);
      PrefixOfPrefix(rows);
      var last := if Succeeds(rows[k], k, snapshot, env) && env.ledgerWrites(k) then {rows[k][IdColumn]} else {};
      assert CommittedIds(rows, snapshot, env) == CommittedIds(prefix, snapshot, env) + last;
    }
  }

  /** `new_records` counts exactly the successfully scored rows. */
  lemma {:induction false} RunCount(init: World, rows: seq<Row>, snapshot: set<string>, env: Environment)
    ensures Run(init, rows, snapshot, env).newRecords == init.newRecords + |ScoredRows(rows, snapshot, env)|
    decreases |rows|
  {
    if rows != [] {
      var k := |rows| - 1;
      var prefix := rows[..k];
      RunCount(init, prefix, snapshot, env);
      PrefixOfPrefix(rows);
      var last: set<nat> := if Succeeds(rows[k], k, snapshot, env) then {k} else {};
      assert ScoredRows(rows, snapshot, env) == ScoredRows(prefix, snapshot, env) + last;
      assert k !in ScoredRows(prefix, snapshot, env);
    }
  }

  /** Row `i` is the last row of the run that writes the result file of `id`. */
  predicate LastSaver(rows: seq<Row>, i: nat, id: string, snapshot: set<string>, env: Environment) {
    && i < |rows|
    && SavesAt(rows, i, id, snapshot, env)
    && forall j: nat :: i < j < |rows| ==> !SavesAt(rows, j, id, snapshot, env)
  }

  /** Exactly the saved IDs gain a file; every other file is as it was. */
  lemma RunResultKeys(init: World, rows: seq<Row>, snapshot: set<string>, env: Environment)
    ensures Run(init, rows, snapshot, env).results.Keys == init.results.Keys + SavedIds(rows, snapshot, env)
    ensures forall id :: id in init.results && id !in SavedIds(rows, snapshot, env) ==>
      Run(init, rows, snapshot, env).results[id] == init.results[id]
  {
    RunResultKeySet(init, rows, snapshot, env);
    RunResultOthers(init, rows, snapshot, env);
  }

  lemma {:induction false} RunResultKeySet(init: World, rows: seq<Row>, snapshot: set<string>, env: Environment)
    ensures Run(init, rows, snapshot, env).results.Keys == init.results.Keys + SavedIds(rows, snapshot, env)
    decreases |rows|
  {
    if rows != [] {
      var k := |rows| - 1;
      var prefix := rows[..k];
      RunResultKeySet(init, prefix, snapshot, env);
      PrefixOfPrefix(rows);
      var last := if Succeeds(rows[k], k, snapshot, env) && env.saveOpens(k) then {rows[k][IdColumn]} else {};
      assert SavedIds(rows, snapshot, env) == SavedIds(prefix, snapshot, env) + last;
    }
  }

  lemma {:induction false} RunResultOthers(init: World, rows: seq<Row>, snapshot: set<string>, env: Environment)
    ensures forall id :: id in init.results && id !in SavedIds(rows, snapshot, env) ==>
      id in Run(init, rows, snapshot, env).results && Run(init, rows, snapshot, env).results[id] == init.results[id]
    decreases |rows|
  {
    if rows != [] {
      var k := |rows| - 1;
      var prefix := rows[..k];
      RunResultOthers(init, prefix, snapshot, env);
      PrefixOfPrefix(rows);
      assert SavedIds(prefix, snapshot, env) <= SavedIds(rows, snapshot, env);
    }
  }

  /** The file of a saved ID holds what the last row saving that ID wrote. */
  lemma {:induction false} RunResultContents(init: World, rows: seq<Row>, snapshot: set<string>, env: Environment, id: string, i: nat)
    requires LastSaver(rows, i, id, snapshot, env)
    ensures id in Run(init, rows, snapshot, env).results
    ensures Run(init, rows, snapshot, env).results[id] == FileOfRow(rows[i], i, snapshot, env)
    decreases |rows|
  {
    var k := |rows| - 1;
    var prefix := rows[..k];
    PrefixOfPrefix(rows);
    if i < k {
      assert !SavesAt(rows, k, id, snapshot, env);
      assert LastSaver(prefix, i, id, snapshot, env) by {
        assert SavesAt(prefix, i, id, snapshot, env);
        forall j: nat | i < j < |prefix| ensures !SavesAt(prefix, j, id, snapshot, env) {
          assert !SavesAt(rows, j, id, snapshot, env);
        }
      }
      RunResultContents(init, prefix, snapshot, env, id, i);
    }
  }

  /**
   * When the scorer is `analyze_use_case` over some per-row completion and clock, the
   * document a row saves carries that row's description, `purpose + " " + outputs`.
   */
  lemma SavedFileCarriesDescription(init: World, rows: seq<Row>, snapshot: set<string>, env: Environment,
                                    call: nat -> Option<Completion>, clock: nat -> string, id: string, i: nat)
    requires forall k: nat, d :: env.analyze(k, d) == AnalyzeUseCase(d, call(k), clock(k))
    requires LastSaver(rows, i, id, snapshot, env)
    ensures id in Run(init, rows, snapshot, env).results
    ensures var file := Run(init, rows, snapshot, env).results[id];
      file.Document? ==>
        file.content.JObject? && DescriptionKey in file.content.fields &&
        file.content.fields[DescriptionKey] == JString(rows[i][PurposeColumn] + " " + rows[i][OutputsColumn])
  {
    RunResultContents(init, rows, snapshot, env, id, i);
    var description := Classify(rows[i], snapshot).description;
    var result := env.analyze(i, description).value;
    assert result == AnalyzeUseCase(description, call(i), clock(i)).value;
    if ToDict(result).Some? {
      ToDictContents(result);
    }
  }

  // ---------------------------------------------------------------- consequences

  /** While its re-reads succeed, the ledger never shrinks. */
  lemma LedgerOnlyGrows(init: World, rows: seq<Row>, snapshot: set<string>, env: Environment)
    requires RereadsSucceed(rows, snapshot, env)
    ensures Load(init.ledger) <= Load(Run(init, rows, snapshot, env).ledger)
  {
    RunLedger(init, rows, snapshot, env);
  }

  /** An ID the run adds to the ledger belongs to a row that got past the skip rules and was scored. */
  lemma CommitFollowsScore(init: World, rows: seq<Row>, snapshot: set<string>, env: Environment, id: string)
    requires id in Load(Run(init, rows, snapshot, env).ledger) && id !in Load(init.ledger)
    ensures exists i: nat :: i < |rows| && Succeeds(rows[i], i, snapshot, env) && rows[i][IdColumn] == id
    ensures id !in snapshot && id != ""
  {
    RunLedgerBound(init, rows, snapshot, env);
  }

  /**
   * No row that a skip rule drops, or whose scoring raised, is committed or saved on its
   * own account; an ID already in the ledger stays there while the re-reads succeed.
   */
  lemma DroppedRowLeavesNoTrace(init: World, rows: seq<Row>, snapshot: set<string>, env: Environment, id: string)
    requires forall i: nat :: i < |rows| && HasId(rows[i]) && rows[i][IdColumn] == id ==> !Succeeds(rows[i], i, snapshot, env)
    ensures id in Load(Run(init, rows, snapshot, env).ledger) ==> id in Load(init.ledger)
    ensures RereadsSucceed(rows, snapshot, env) ==>
      (id in Load(Run(init, rows, snapshot, env).ledger) <==> id in Load(init.ledger))
    ensures id in Run(init, rows, snapshot, env).results <==> id in init.results
    ensures id in init.results ==> Run(init, rows, snapshot, env).results[id] == init.results[id]
  {
    RunLedgerBound(init, rows, snapshot, env);
    if RereadsSucceed(rows, snapshot, env) {
      RunLedger(init, rows, snapshot, env);
    }
    RunResultKeys(init, rows, snapshot, env);
  }

  /** A run in which no row is scored changes nothing. */
  lemma {:induction false} NothingScoredIsIdentity(init: World, rows: seq<Row>, snapshot: set<string>, env: Environment)
    requires forall i: nat :: i < |rows| ==> !Classify(rows[i], snapshot).Score?
    ensures Run(init, rows, snapshot, env) == init
    decreases |rows|
  {
    if rows != [] {
      PrefixOfPrefix(rows);
      NothingScoredIsIdentity(init, rows[..|rows| - 1], snapshot, env);
    }
  }

  /**
   * Idempotence. Take a first run whose snapshot is any part of the ledger: the whole
   * ledger when its read succeeds, `{}` when it fails (`Snapshot`). Suppose every row
   * that reached the scorer in it was scored and committed after a successful re-read.
   * Then a second run over the same rows, starting from the files the first left and
   * taking its snapshot with a successful read, scores nothing and changes nothing,
   * whatever its scorer and file outcomes do.
   */
  lemma RerunProcessesNothing(ledger: LedgerDocument, results: map<string, ResultFile>, rows: seq<Row>,
                              snapshot: set<string>, env1: Environment, env2: Environment)
    requires snapshot <= Load(ledger)
    requires forall i: nat :: i < |rows| && Classify(rows[i], snapshot).Score? ==>
      Succeeds(rows[i], i, snapshot, env1) && env1.ledgerRereads(i) && env1.ledgerWrites(i)
    ensures var first := Run(World(ledger, results, 0), rows, snapshot, env1);
      Run(World(first.ledger, first.results, 0), rows, Load(first.ledger), env2) == World(first.ledger, first.results, 0)
  {
    var first := Run(World(ledger, results, 0), rows, snapshot, env1);
    RunLedger(World(ledger, results, 0), rows, snapshot, env1);
    forall i: nat | i < |rows| ensures !Classify(rows[i], Load(first.ledger)).Score? {
      if Classify(rows[i], snapshot).Score? {
        assert rows[i][IdColumn] in CommittedIds(rows, snapshot, env1);
      }
    }
    NothingScoredIsIdentity(World(first.ledger, first.results, 0), rows, Load(first.ledger), env2);
  }

  /**
   * The snapshot is taken once: a row whose ID repeats one committed earlier in the same
   * batch is scored, saved, committed and counted again.
   */
  lemma RepeatedIdIsProcessedTwice(ledger: LedgerDocument, results: map<string, ResultFile>, row: Row, env: Environment)
    requires Classify(row, Load(ledger)).Score?
    requires env.analyze(0, Classify(row, Load(ledger)).description).Success?
    requires env.analyze(1, Classify(row, Load(ledger)).description).Success?
    ensures Run(World(ledger, results, 0), [row, row], Load(ledger), env).newRecords == 2
  {
    var snapshot := Load(ledger);
    var w0 := World(ledger, results, 0);
    assert [row][..0] == [];
    assert Run(w0, [row][..0], snapshot, env) == w0;
    var w1 := Run(w0, [row], snapshot, env);
    assert w1 == Step(w0, row, 0, snapshot, env);
    assert w1.newRecords == 1;
    assert [row, row][..1] == [row];
    assert Run(w0, [row, row], snapshot, env) == Step(w1, row, 1, snapshot, env);
  }

  /**
   * `save_analysis_result` swallows its errors, so a row whose result file cannot be
   * opened is still committed (and counted).
   */
  lemma CommitDespiteFailedSave(ledger: LedgerDocument, results: map<string, ResultFile>, row: Row, env: Environment)
    requires Classify(row, Load(ledger)).Score? && row[IdColumn] !in results
    requires env.analyze(0, Classify(row, Load(ledger)).description).Success?
    requires !env.saveOpens(0) && env.ledgerWrites(0)
    ensures var w := Run(World(ledger, results, 0), [row], Load(ledger), env);
      row[IdColumn] in Load(w.ledger) && row[IdColumn] !in w.results && w.newRecords == 1
  {
    assert [row][..0] == [];
  }

  /**
   * And a row whose scorecard has no numeric average leaves an empty result file behind
   * (the file is opened before `to_json` raises), yet is committed.
   */
  lemma CommitWithEmptyResultFile(ledger: LedgerDocument, results: map<string, ResultFile>, row: Row, env: Environment)
    requires Classify(row, Load(ledger)).Score?
    requires env.analyze(0, Classify(row, Load(ledger)).description).Success?
    requires AverageScore(env.analyze(0, Classify(row, Load(ledger)).description).value).None?
    requires env.saveOpens(0) && env.ledgerWrites(0)
    ensures var w := Run(World(ledger, results, 0), [row], Load(ledger), env);
      row[IdColumn] in Load(w.ledger) && w.results[row[IdColumn]] == Empty
  {
    assert [row][..0] == [];
  }

  /**
   * A commit whose re-read of the tracking file fails rewrites it with the one new ID:
   * the ledger `["UC0"]` loses "UC0" when UC1 is committed.
   */
  lemma FailedRereadForgetsEarlierIds(env: Environment)
    requires env.analyze(0, "Improves triage Faster diagnosis").Success?
    requires !env.ledgerRereads(0) && env.ledgerWrites(0)
    ensures var w := Run(World(Stored({"UC0"}), map[], 0), [InventoryRow("UC1", "Improves triage", "Faster diagnosis")], {"UC0"}, env);
      Load(w.ledger) == {"UC1"} && w.newRecords == 1
  {
    var row := InventoryRow("UC1", "Improves triage", "Faster diagnosis");
    assert "Improves triage" + " " + "Faster diagnosis" == "Improves triage Faster diagnosis";
    assert Classify(row, {"UC0"}) == Score("UC1", "Improves triage Faster diagnosis");
    assert [row][..0] == [];
  }

  // ---------------------------------------------------------------- a worked batch

  /** A row holding the three columns `process_csv` reads. */
  function InventoryRow(id: string, purpose: string, outputs: string): (row: Row)
    ensures IdColumn in row && PurposeColumn in row && OutputsColumn in row
    ensures row[IdColumn] == id && row[PurposeColumn] == purpose && row[OutputsColumn] == outputs
  {
    map[IdColumn := id, PurposeColumn := purpose, OutputsColumn := outputs]
  }

  /** Three inventory rows, the second without an ID. */
  const ExampleRows: seq<Row> := [
    InventoryRow("UC1", "Improves triage", "Faster diagnosis"),
    InventoryRow("", "X", "Y"),
    InventoryRow("UC2", "Modernizes claims", "Automated review")]

  /** A row holding the three columns and a new, non-empty ID is scored with the joined text. */
  lemma InventoryRowScored(id: string, purpose: string, outputs: string, snapshot: set<string>)
    requires id != "" && id !in snapshot
    ensures Classify(InventoryRow(id, purpose, outputs), snapshot) == Score(id, purpose + " " + outputs)
  {
  }

  lemma ExampleRowsClassified(snapshot: set<string>)
    requires "UC1" !in snapshot && "UC2" !in snapshot
    ensures Classify(ExampleRows[0], snapshot) == Score("UC1", "Improves triage Faster diagnosis")
    ensures Classify(ExampleRows[1], snapshot) == MissingId
    ensures Classify(ExampleRows[2], snapshot) == Score("UC2", "Modernizes claims Automated review")
  {
    InventoryRowScored("UC1", "Improves triage", "Faster diagnosis", snapshot);
    InventoryRowScored("UC2", "Modernizes claims", "Automated review", snapshot);
    assert "Improves triage" + " " + "Faster diagnosis" == "Improves triage Faster diagnosis";
    assert "Modernizes claims" + " " + "Automated review" == "Modernizes claims Automated review";
  }

  /**
   * With an empty ledger and collaborators that never fail, the batch writes UC1 and UC2,
   * commits both and skips the row without an ID.
   */
  lemma ExampleBatch(env: Environment)
    requires forall i: nat, d :: env.analyze(i, d).Success?
    requires forall i: nat :: env.saveOpens(i) && env.ledgerRereads(i) && env.ledgerWrites(i)
    ensures var w := Run(World(Missing, map[], 0), ExampleRows, {}, env);
      && Load(w.ledger) == {"UC1", "UC2"}
      && w.results.Keys == {"UC1", "UC2"}
      && w.newRecords == 2
  {
    ExampleLedger(env);
    ExampleResults(env);
    ExampleCount(env);
  }

  lemma ExampleLedger(env: Environment)
    requires forall i: nat, d :: env.analyze(i, d).Success?
    requires forall i: nat :: env.ledgerRereads(i) && env.ledgerWrites(i)
    ensures Load(Run(World(Missing, map[], 0), ExampleRows, {}, env).ledger) == {"UC1", "UC2"}
  {
    ExampleCommittedIds(env);
    RunLedger(World(Missing, map[], 0), ExampleRows, {}, env);
  }

  lemma ExampleResults(env: Environment)
    requires forall i: nat, d :: env.analyze(i, d).Success?
    requires forall i: nat :: env.saveOpens(i)
    ensures Run(World(Missing, map[], 0), ExampleRows, {}, env).results.Keys == {"UC1", "UC2"}
  {
    ExampleSavedIds(env);
    RunResultKeys(World(Missing, map[], 0), ExampleRows, {}, env);
  }

  lemma ExampleCount(env: Environment)
    requires forall i: nat, d :: env.analyze(i, d).Success?
    ensures Run(World(Missing, map[], 0), ExampleRows, {}, env).newRecords == 2
  {
    ExampleScoredRows(env);
    RunCount(World(Missing, map[], 0), ExampleRows, {}, env);
  }

  lemma ExampleSucceeds(env: Environment)
    requires forall i: nat, d :: env.analyze(i, d).Success?
    ensures Succeeds(ExampleRows[0], 0, {}, env) && !Succeeds(ExampleRows[1], 1, {}, env) && Succeeds(ExampleRows[2], 2, {}, env)
    ensures ExampleRows[0][IdColumn] == "UC1" && ExampleRows[2][IdColumn] == "UC2"
  {
    ExampleRowsClassified({});
  }

  lemma ExampleCommittedIds(env: Environment)
    requires forall i: nat, d :: env.analyze(i, d).Success?
    requires forall i: nat :: env.ledgerWrites(i)
    ensures CommittedIds(ExampleRows, {}, env) == {"UC1", "UC2"}
  {
    ExampleSucceeds(env);
    assert "UC1" in CommittedIds(ExampleRows, {}, env);
    assert "UC2" in CommittedIds(ExampleRows, {}, env);
  }

  lemma ExampleSavedIds(env: Environment)
    requires forall i: nat, d :: env.analyze(i, d).Success?
    requires forall i: nat :: env.saveOpens(i)
    ensures SavedIds(ExampleRows, {}, env) == {"UC1", "UC2"}
  {
    ExampleSucceeds(env);
    assert "UC1" in SavedIds(ExampleRows, {}, env);
    assert "UC2" in SavedIds(ExampleRows, {}, env);
  }

  lemma ExampleScoredRows(env: Environment)
    requires forall i: nat, d :: env.analyze(i, d).Success?
    ensures ScoredRows(ExampleRows, {}, env) == {0, 2}
    ensures |ScoredRows(ExampleRows, {}, env)| == 2
  {
    ExampleSucceeds(env);
    assert |{0, 2}| == 2;
  }

  /** Running the same batch again, from the files the first run left, processes nothing. */
  lemma ExampleRerun(env: Environment, env2: Environment)
    requires forall i: nat, d :: env.analyze(i, d).Success?
    requires forall i: nat :: env.ledgerRereads(i) && env.ledgerWrites(i)
    ensures var w := Run(World(Missing, map[], 0), ExampleRows, {}, env);
      Run(World(w.ledger, w.results, 0), ExampleRows, Load(w.ledger), env2) == World(w.ledger, w.results, 0)
  {
    RerunProcessesNothing(Missing, map[], ExampleRows, {}, env, env2);
  }

  /**
   * When the snapshot read before the loop fails, the snapshot is empty: over a ledger
   * already holding UC1 and UC2, both rows are scored and counted again.
   */
  lemma FailedSnapshotRescoresEverything(env: Environment)
    requires !env.snapshotReads
    requires forall i: nat, d :: env.analyze(i, d).Success?
    ensures var ledger := Stored({"UC1", "UC2"});
      Run(World(ledger, map[], 0), ExampleRows, Snapshot(ledger, env), env).newRecords == 2
  {
    ExampleScoredRows(env);
    RunCount(World(Stored({"UC1", "UC2"}), map[], 0), ExampleRows, {}, env);
  }

  /** When scoring UC2 raises, UC2 is neither saved nor committed, and UC1 is unaffected. */
  lemma ExampleBatchWithFailedScore(env: Environment)
    requires forall i: nat, d :: i != 2 ==> env.analyze(i, d).Success?
    requires env.analyze(2, "Modernizes claims Automated review").Failure?
    requires forall i: nat :: env.saveOpens(i) && env.ledgerRereads(i) && env.ledgerWrites(i)
    ensures var w := Run(World(Missing, map[], 0), ExampleRows, {}, env);
      && Load(w.ledger) == {"UC1"}
      && w.results.Keys == {"UC1"}
      && w.newRecords == 1
  {
    ExampleFailedLedger(env);
    ExampleFailedResults(env);
    ExampleFailedCount(env);
  }

  lemma ExampleFailedLedger(env: Environment)
    requires forall i: nat, d :: i != 2 ==> env.analyze(i, d).Success?
    requires env.analyze(2, "Modernizes claims Automated review").Failure?
    requires forall i: nat :: env.saveOpens(i) && env.ledgerRereads(i) && env.ledgerWrites(i)
    ensures Load(Run(World(Missing, map[], 0), ExampleRows, {}, env).ledger) == {"UC1"}
  {
    ExampleFailedSets(env);
    RunLedger(World(Missing, map[], 0), ExampleRows, {}, env);
  }

  lemma ExampleFailedResults(env: Environment)
    requires forall i: nat, d :: i != 2 ==> env.analyze(i, d).Success?
    requires env.analyze(2, "Modernizes claims Automated review").Failure?
    requires forall i: nat :: env.saveOpens(i) && env.ledgerRereads(i) && env.ledgerWrites(i)
    ensures Run(World(Missing, map[], 0), ExampleRows, {}, env).results.Keys == {"UC1"}
  {
    ExampleFailedSets(env);
    RunResultKeys(World(Missing, map[], 0), ExampleRows, {}, env);
  }

  lemma ExampleFailedCount(env: Environment)
    requires forall i: nat, d :: i != 2 ==> env.analyze(i, d).Success?
    requires env.analyze(2, "Modernizes claims Automated review").Failure?
    requires forall i: nat :: env.saveOpens(i) && env.ledgerRereads(i) && env.ledgerWrites(i)
    ensures Run(World(Missing, map[], 0), ExampleRows, {}, env).newRecords == 1
  {
    ExampleFailedSets(env);
    RunCount(World(Missing, map[], 0), ExampleRows, {}, env);
  }

  lemma ExampleFailedSets(env: Environment)
    requires forall i: nat, d :: i != 2 ==> env.analyze(i, d).Success?
    requires env.analyze(2, "Modernizes claims Automated review").Failure?
    requires forall i: nat :: env.saveOpens(i) && env.ledgerRereads(i) && env.ledgerWrites(i)
    ensures CommittedIds(ExampleRows, {}, env) == {"UC1"}
    ensures SavedIds(ExampleRows, {}, env) == {"UC1"}
    ensures |ScoredRows(ExampleRows, {}, env)| == 1
  {
    ExampleRowsClassified({});
    assert Succeeds(ExampleRows[0], 0, {}, env) && !Succeeds(ExampleRows[1], 1, {}, env) && !Succeeds(ExampleRows[2], 2, {}, env);
    assert ExampleRows[0][IdColumn] == "UC1";
    assert "UC1" in CommittedIds(ExampleRows, {}, env) && "UC1" in SavedIds(ExampleRows, {}, env);
    assert ScoredRows(ExampleRows, {}, env) == {0};
  }
}
