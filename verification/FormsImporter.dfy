/** The loop over submissions, with its savepoints and commits, proved against FormsImport. */
module FormsImporter {
  import opened Options
  import opened FormsImport
  import opened FormsLaws
  import opened FormsOutcome

  /** How the import of one row ends, as the caller sees it. */
  datatype RowOutcome = Imported | Blocked | SkippedConflict

  /** What the run row of the import stores. */
  datatype RunRow = RunRow(rowsIn: nat, inserted: nat, skipped: nat, inConflict: nat, errors: nat, mark: Option<int>)

  class Importer {
    var committed: Db
    var working: Db
    var seen: set<string>
    var sinceCommit: nat
    var counts: Counts
    var aborted: bool

    ghost function Now(): Run
      reads this
    {
      Run(committed, working, seen, sinceCommit, counts, aborted)
    }

    constructor (db: Db)
      ensures Now() == Started(db)
    {
      committed, working := db, db;
      seen := set id | id in db.imported;
      sinceCommit, counts, aborted := 0, Counts(0, 0, 0, 0, 0, 0, None), false;
    }

    method RecordConflict(c: Conflict)
      modifies this`working
      ensures working == old(working).(conflicts := old(working).conflicts + [c])
    {
      working := working.(conflicts := working.conflicts + [c]);
    }

    /** The row is written inside a savepoint. A failure restores the savepoint, so that its conflict is all
        the row leaves behind. */
    method ImportOne(sourceId: string, attempt: Attempt) returns (outcome: RowOutcome)
      modifies this`working
      ensures match attempt
              case Imports(writes) =>
                outcome.Imported? && working == old(working).(data := old(working).data + writes, imported := old(working).imported + [sourceId])
              case Blocks(writes) => outcome.Blocked? && working == old(working).(data := old(working).data + writes)
              case Fails(_, conflictType) =>
                outcome.SkippedConflict? && working == old(working).(conflicts := old(working).conflicts + [Conflict(sourceId, conflictType)])
    {
      var savepoint := working;
      match attempt {
        case Imports(writes) =>
          working := working.(data := working.data + writes);
          working := working.(imported := working.imported + [sourceId]);
          return RowOutcome.Imported;
        case Blocks(writes) =>
          working := working.(data := working.data + writes);
          return RowOutcome.Blocked;
        case Fails(partial, conflictType) =>
          working := working.(data := working.data + partial);
          working := savepoint;
          RecordConflict(Conflict(sourceId, conflictType));
          return RowOutcome.SkippedConflict;
      }
    }

    /** Accepted if and only if no conflict of the open transaction has the natural key of another. A
        refusal leaves nothing of the batch, and what earlier commits stored. */
    method Commit()
      requires !aborted
      modifies this
      ensures aborted <==> exists i, j :: 0 <= i < j < |old(working).conflicts| && old(working).conflicts[i] == old(working).conflicts[j]
      ensures !aborted ==> committed == working == old(working) && sinceCommit == 0
      ensures aborted ==> committed == working == old(committed) && sinceCommit == old(sinceCommit)
      ensures seen == old(seen) && counts == old(counts)
    {
      if Distinct(working.conflicts) {
        committed := working;
        sinceCommit := 0;
      } else {
        aborted := true;
        working := committed;
      }
    }

    method ProcessRow(row: Row)
      requires !aborted
      modifies this
      ensures Now() == Handled(old(Now()), row)
    {
      counts := counts.(rowsIn := counts.rowsIn + 1);
      if row.createdAt.Some? && (counts.maxCreatedAt.None? || row.createdAt.value > counts.maxCreatedAt.value) {
        counts := counts.(maxCreatedAt := row.createdAt);
      }
      if row.Unmappable? {
        counts := counts.(mappingFailed := counts.mappingFailed + 1);
        var id := if row.badId.None? || row.badId.value == "" then "unknown" else row.badId.value;
        RecordConflict(Conflict(id, row.reason));
        sinceCommit := sinceCommit + 1;
      } else if row.sourceId in seen {
        counts := counts.(skippedAlreadyImported := counts.skippedAlreadyImported + 1);
      } else {
        var outcome := ImportOne(row.sourceId, row.attempt);
        match outcome {
          case Imported =>
            counts := counts.(imported := counts.imported + 1);
            seen := seen + {row.sourceId};
          case Blocked => counts := counts.(blocked := counts.blocked + 1);
          case SkippedConflict => counts := counts.(skippedConflict := counts.skippedConflict + 1);
        }
        sinceCommit := sinceCommit + 1;
      }
    }

    method ProcessRows(rows: seq<Row>, commitEvery: Option<nat>)
      requires !aborted
      modifies this
      ensures Now() == Processed(old(Now()), rows, commitEvery, |rows|)
    {
      for k := 0 to |rows|
        invariant Now() == Processed(old(Now()), rows, commitEvery, k)
      {
        if aborted {
          Stopped(old(Now()), rows, commitEvery, k);
          return;
        }
        ProcessRow(rows[k]);
        if commitEvery.Some? && sinceCommit >= commitEvery.value {
          Commit();
        }
      }
    }

    /** The production run, up to its last commit. */
    method RunFormsEtl(rows: seq<Row>, commitEvery: Option<nat>, sourceNewest: Option<int>) returns (row: Option<RunRow>)
      requires Now() == Started(committed)
      modifies this
      ensures Now() == Finished(old(committed), rows, commitEvery)
      ensures row.None? <==> aborted
      ensures row.Some? ==> row.value == RunRowOf(counts, row.value.mark) && IsMark(row.value.mark, rows, sourceNewest)
      ensures row.Some? ==>
                && committed == Expected(old(committed), rows, |rows|) && CountersAre(counts, old(committed), rows, |rows|)
                && row.value.rowsIn == |rows| && row.value.inserted == counts.imported
                && row.value.skipped == counts.blocked + counts.skippedConflict + counts.skippedAlreadyImported
                && row.value.inConflict == row.value.errors == counts.mappingFailed + counts.skippedConflict
    {
      ProcessRows(rows, commitEvery);
      if !aborted {
        MarkIsTheNewestRow(old(committed), rows, commitEvery, |rows|);
        CountersTell(old(committed), rows, commitEvery, |rows|);
        Commit();
      }
      if aborted {
        return None;
      }
      RunCommitsTheSum(old(committed), rows, commitEvery);
      return Some(RunRowOf(counts, if counts.maxCreatedAt.Some? then counts.maxCreatedAt else sourceNewest));
    }
  }

  /** Rows that failed mapping count as conflicts and as errors, but not as skipped. */
  function RunRowOf(c: Counts, mark: Option<int>): RunRow {
    RunRow(c.rowsIn, c.imported, c.blocked + c.skippedConflict + c.skippedAlreadyImported,
           c.mappingFailed + c.skippedConflict, c.mappingFailed + c.skippedConflict, mark)
  }

  /** The newest created_at read; when no row read has one, the newest the source knows of. */
  predicate IsMark(mark: Option<int>, rows: seq<Row>, sourceNewest: Option<int>) {
    if exists k :: 0 <= k < |rows| && rows[k].createdAt.Some? then
      && mark.Some? && (exists k :: 0 <= k < |rows| && rows[k].createdAt == mark)
      && forall k :: 0 <= k < |rows| && rows[k].createdAt.Some? ==> rows[k].createdAt.value <= mark.value
    else mark == sourceNewest
  }

  lemma {:induction false} Stopped(r: Run, rows: seq<Row>, commitEvery: Option<nat>, n: nat)
    requires n <= |rows| && Processed(r, rows, commitEvery, n).aborted
    ensures Processed(r, rows, commitEvery, |rows|) == Processed(r, rows, commitEvery, n)
    decreases |rows| - n
  {
    if n < |rows| {
      Stopped(r, rows, commitEvery, n + 1);
    }
  }
}
