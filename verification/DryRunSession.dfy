/** The session of a dry run: tables imported one by one, then rolled back and replayed, proved against
    the functions of DryRun. */
module DryRunSession {
  import opened Options
  import opened DryRun

  lemma {:induction false} OneRunMore(db: Db, w: Work, base: nat)
    requires base <= |db.runs|
    ensures |Worked(db, w).runs| == |db.runs| + 1 && db.runs <= Worked(db, w).runs
    ensures Worked(db, w).runs[base..] == db.runs[base..] + [Worked(db, w).runs[|db.runs|]]
  {
  }

  class Session {
    var business: Business
    var runs: seq<EtlRun>
    var conflicts: seq<ConflictRow>
    var deleted: seq<DeletedRow>
    var bulk: seq<BulkRow>
    var next: Id

    ghost function Now(): Db
      reads this
    {
      Db(business, runs, conflicts, deleted, bulk, next)
    }

    constructor (db: Db)
      ensures Now() == db
    {
      business, runs, conflicts := db.business, db.runs, db.conflicts;
      deleted, bulk, next := db.deleted, db.bulk, db.next;
    }

    /** INSERT … ON CONFLICT DO NOTHING on the natural key. */
    method RecordConflicts(found: seq<Conflict>)
      modifies this`conflicts, this`next
      ensures Now() == Recorded(old(Now()), found)
    {
      for k := 0 to |found|
        invariant Now() == Recorded(old(Now()), found[..k])
      {
        assert found[..k + 1][..k] == found[..k];
        if !Known(conflicts, found[k].key) {
          conflicts := conflicts + [ConflictRow(next, found[k])];
          next := next + 1;
        }
      }
      assert found[..|found|] == found;
    }

    method SweepDeleted(run: Id, gone: seq<nat>)
      modifies this`deleted, this`next
      ensures deleted == old(deleted) + Swept(run, gone, old(next)) && next == old(next) + |gone|
    {
      for k := 0 to |gone|
        invariant next == old(next) + k
        invariant deleted == old(deleted) + Swept(run, gone[..k], old(next))
      {
        assert Swept(run, gone[..k + 1], old(next)) == Swept(run, gone[..k], old(next)) + [DeletedRow(next, run, gone[k])];
        deleted := deleted + [DeletedRow(next, run, gone[k])];
        next := next + 1;
      }
      assert gone[..|gone|] == gone;
    }

    /** One table inside its run row, up to where it ends. */
    method ImportTable(w: Work)
      modifies this
      ensures Now() == Worked(old(Now()), w)
    {
      var run := EtlRun(next, RunContent(w.table, if w.outcome.Fine? then w.counters else 0, if w.outcome.Fine? then 0 else 1));
      next := next + 1;
      runs := runs + [run];
      business := w.business;
      RecordConflicts(w.conflicts);
      SweepDeleted(run.id, w.deleted);
    }

    static method Diff<R>(rows: seq<R>, idOf: R -> Id, before: set<Id>) returns (added: seq<R>)
      ensures added == NewRows(rows, idOf, before)
    {
      added := [];
      for k := 0 to |rows|
        invariant added == NewRows(rows[..k], idOf, before)
      {
        assert rows[..k + 1][..k] == rows[..k];
        if idOf(rows[k]) !in before {
          added := added + [rows[k]];
        }
      }
      assert rows[..|rows|] == rows;
    }

    /** Re-add the captured run rows, and remember the new id of each. */
    method ReaddRuns(captured: seq<EtlRun>) returns (remap: map<Id, Id>)
      modifies this`runs, this`next
      ensures runs == old(runs) + FreshRuns(captured, old(next)) && next == old(next) + |captured|
      ensures forall id: Id :: id in remap <==> IndexOf(captured, id).Some?
      ensures forall id :: id in remap ==> remap[id] == old(next) + IndexOf(captured, id).value
    {
      remap := map[];
      for k := 0 to |captured|
        invariant next == old(next) + k
        invariant runs == old(runs) + FreshRuns(captured[..k], old(next))
        invariant forall id: Id :: id in remap <==> IndexOf(captured[..k], id).Some?
        invariant forall id :: id in remap ==> remap[id] == old(next) + IndexOf(captured[..k], id).value
      {
        assert captured[..k + 1][..k] == captured[..k];
        assert FreshRuns(captured[..k + 1], old(next)) == FreshRuns(captured[..k], old(next)) + [EtlRun(next, captured[k].content)];
        runs := runs + [EtlRun(next, captured[k].content)];
        remap := remap[captured[k].id := next];
        next := next + 1;
      }
      assert captured[..|captured|] == captured;
    }

    method ReaddConflicts(rows: seq<ConflictRow>)
      modifies this`conflicts, this`next
      ensures conflicts == old(conflicts) + FreshConflicts(rows, old(next)) && next == old(next) + |rows|
    {
      for k := 0 to |rows|
        invariant next == old(next) + k
        invariant conflicts == old(conflicts) + FreshConflicts(rows[..k], old(next))
      {
        assert FreshConflicts(rows[..k + 1], old(next)) == FreshConflicts(rows[..k], old(next)) + [ConflictRow(next, rows[k].content)];
        conflicts := conflicts + [ConflictRow(next, rows[k].content)];
        next := next + 1;
      }
      assert rows[..|rows|] == rows;
    }

    /** Rows whose run row was never captured are skipped. */
    method ReaddDeleted(rows: seq<DeletedRow>, remap: map<Id, Id>, ghost captured: seq<EtlRun>, ghost firstRun: Id)
      requires forall id: Id :: id in remap <==> IndexOf(captured, id).Some?
      requires forall id :: id in remap ==> remap[id] == firstRun + IndexOf(captured, id).value
      modifies this`deleted, this`next
      ensures var back := FreshDeleted(rows, captured, firstRun, old(next));
              deleted == old(deleted) + back && next == old(next) + |back|
    {
      ghost var back: seq<DeletedRow> := [];
      for k := 0 to |rows|
        invariant back == FreshDeleted(rows[..k], captured, firstRun, old(next))
        invariant deleted == old(deleted) + back && next == old(next) + |back|
      {
        assert rows[..k + 1][..k] == rows[..k];
        if rows[k].run in remap {
          deleted := deleted + [DeletedRow(next, remap[rows[k].run], rows[k].sourceId)];
          back := back + [DeletedRow(next, remap[rows[k].run], rows[k].sourceId)];
          next := next + 1;
        }
      }
      assert rows[..|rows|] == rows;
    }

    method ReaddBulk(rows: seq<BulkRow>)
      modifies this`bulk, this`next
      ensures bulk == old(bulk) + FreshBulk(rows, old(next)) && next == old(next) + |rows|
    {
      for k := 0 to |rows|
        invariant next == old(next) + k
        invariant bulk == old(bulk) + FreshBulk(rows[..k], old(next))
      {
        assert FreshBulk(rows[..k + 1], old(next)) == FreshBulk(rows[..k], old(next)) + [BulkRow(next, rows[k].payload)];
        bulk := bulk + [BulkRow(next, rows[k].payload)];
        next := next + 1;
      }
      assert rows[..|rows|] == rows;
    }

    /** ROLLBACK to what was committed before the run. */
    method RollBack(start: Db)
      modifies this
      ensures Now() == RolledBack(start, old(Now()))
    {
      business, runs, conflicts, deleted, bulk := start.business, start.runs, start.conflicts, start.deleted, start.bulk;
    }

    method Readd(captured: seq<EtlRun>, newConflicts: seq<ConflictRow>, newDeleted: seq<DeletedRow>, newBulk: seq<BulkRow>)
      modifies this
      ensures Now() == PutBack(old(Now()), old(next), captured, newConflicts, newDeleted, newBulk)
    {
      ghost var start := Now();
      var remap := ReaddRuns(captured);
      ReaddConflicts(newConflicts);
      ReaddDeleted(newDeleted, remap, captured, start.next);
      ReaddBulk(newBulk);
      assert business == start.business;
    }

    method ReplayDryRunAudit(start: Db, pre: Capture, captured: seq<EtlRun>)
      requires pre == CaptureOf(start)
      modifies this
      ensures Now() == Replayed(start, old(Now()), captured)
    {
      var newConflicts := Diff(conflicts, ConflictId, pre.conflicts);
      var newDeleted := Diff(deleted, DeletedId, pre.deleted);
      var newBulk := Diff(bulk, BulkId, pre.bulk);
      RollBack(start);
      Readd(captured, newConflicts, newDeleted, newBulk);
    }

    /** Import tables up to the first that fails, taking a snapshot of the run row of each. */
    method ImportWhileFine(works: seq<Work>) returns (captured: seq<EtlRun>, k: nat)
      modifies this
      ensures k == Completed(works) && Now() == WorkedUpTo(old(Now()), works, k)
      ensures captured == Captured(old(Now()), Now())
    {
      captured, k := [], 0;
      while k < |works| && works[k].outcome.Fine?
        invariant k <= Completed(works)
        invariant Now() == WorkedUpTo(old(Now()), works, k)
        invariant old(runs) <= runs && captured == runs[|old(runs)|..]
      {
        ghost var before := Now();
        ImportTable(works[k]);
        OneRunMore(before, works[k], |old(runs)|);
        captured := captured + [runs[|runs| - 1]];
        k := k + 1;
      }
    }

    method EndRun(works: seq<Work>, k: nat, summary: nat)
      requires k <= |works|
      modifies this
      ensures Now() == Ended(old(Now()), works, k, summary)
    {
      if k < |works| {
        ImportTable(works[k]);
      } else {
        bulk := bulk + [BulkRow(next, summary)];
        next := next + 1;
      }
    }

    /** The whole run. flushFails: the flush at the start of the replay raises. */
    method RunDry(works: seq<Work>, summary: nat, flushFails: bool)
      modifies this
      ensures Now() == DryRunOf(old(Now()), works, summary, flushFails)
    {
      var start := Db(business, runs, conflicts, deleted, bulk, next);
      var pre := CaptureOf(start);
      var captured, k := ImportWhileFine(works);
      EndRun(works, k, summary);
      if AuditLost(works, k, flushFails) {
        RollBack(start);
      } else {
        ReplayDryRunAudit(start, pre, captured);
      }
    }
  }
}
