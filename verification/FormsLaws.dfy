/** Accounting, no double import, and what a crash leaves behind. */
module FormsLaws {
  import opened Options
  import opened FormsImport

  // ---------------------------------------------------------------- accounting

  predicate Balanced(c: Counts) {
    c.rowsIn == c.imported + c.blocked + c.mappingFailed + c.skippedConflict + c.skippedAlreadyImported
  }

  lemma {:induction false} OneCounterMoves(c: Counts, row: Row, seen: set<string>)
    requires Balanced(c)
    ensures Balanced(CountsAfter(c, row, seen)) && CountsAfter(c, row, seen).rowsIn == c.rowsIn + 1
  {
  }

  /** Every row read lands in exactly one of the five counters, whatever fails. */
  lemma {:induction false} EveryRowIsAccountedFor(r: Run, rows: seq<Row>, commitEvery: Option<nat>, n: nat)
    requires n <= |rows| && Balanced(r.counts)
    ensures Balanced(Processed(r, rows, commitEvery, n).counts)
    ensures !Processed(r, rows, commitEvery, n).aborted ==> Processed(r, rows, commitEvery, n).counts.rowsIn == r.counts.rowsIn + n
  {
    if n > 0 {
      EveryRowIsAccountedFor(r, rows, commitEvery, n - 1);
      var before := Processed(r, rows, commitEvery, n - 1);
      OneCounterMoves(before.counts, rows[n - 1], before.seen);
    }
  }

  // ---------------------------------------------------------------- the run follows the rows

  ghost predicate Follows(r: Run, start: Db, seen: set<string>, rows: seq<Row>, n: nat)
    requires n <= |rows|
  {
    r.working == Reached(start, seen, rows, n) && r.seen == SeenAfter(seen, rows, n)
  }

  lemma {:induction false} RunFollowsTheRows(db: Db, rows: seq<Row>, commitEvery: Option<nat>, n: nat)
    requires n <= |rows|
    ensures var r := Processed(Started(db), rows, commitEvery, n);
            !r.aborted ==> Follows(r, db, Started(db).seen, rows, n)
  {
    if n > 0 {
      RunFollowsTheRows(db, rows, commitEvery, n - 1);
    }
  }

  /** The counters say what happened to the tables: contacts imported, conflicts met. */
  ghost predicate Tells(c: Counts, db: Db, start: Db, met: seq<Conflict>) {
    c.imported + |start.imported| == |db.imported| && c.mappingFailed + c.skippedConflict == |met|
  }

  lemma {:induction false} CountersMatchTheTables(db: Db, rows: seq<Row>, commitEvery: Option<nat>, n: nat)
    requires n <= |rows|
    ensures var r := Processed(Started(db), rows, commitEvery, n);
            !r.aborted ==> Tells(r.counts, r.working, db, ConflictsMet(Started(db).seen, rows, n))
  {
    if n > 0 {
      CountersMatchTheTables(db, rows, commitEvery, n - 1);
      RunFollowsTheRows(db, rows, commitEvery, n - 1);
    }
  }

  predicate IsNewest(mark: Option<int>, rows: seq<Row>, n: nat)
    requires n <= |rows|
  {
    && (mark.Some? ==> exists k :: 0 <= k < n && rows[k].createdAt == mark)
    && forall k :: 0 <= k < n && rows[k].createdAt.Some? ==> mark.Some? && rows[k].createdAt.value <= mark.value
  }

  lemma {:induction false} NewestOneMore(mark: Option<int>, rows: seq<Row>, n: nat)
    requires n < |rows| && IsNewest(mark, rows, n)
    ensures IsNewest(Later(mark, rows[n].createdAt), rows, n + 1)
  {
    if mark.Some? {
      var k :| 0 <= k < n && rows[k].createdAt == mark;
    }
  }

  lemma {:induction false} StepMark(r: Run, row: Row, commitEvery: Option<nat>)
    requires !Step(r, row, commitEvery).aborted
    ensures !r.aborted && Step(r, row, commitEvery).counts.maxCreatedAt == Later(r.counts.maxCreatedAt, row.createdAt)
  {
  }

  /** The mark is the newest created_at of all rows read, failed and skipped ones included. */
  lemma {:induction false} MarkIsTheNewestRow(db: Db, rows: seq<Row>, commitEvery: Option<nat>, n: nat)
    requires n <= |rows| && !Processed(Started(db), rows, commitEvery, n).aborted
    ensures IsNewest(Processed(Started(db), rows, commitEvery, n).counts.maxCreatedAt, rows, n)
  {
    if n > 0 {
      MarkIsTheNewestRow(db, rows, commitEvery, n - 1);
      StepMark(Processed(Started(db), rows, commitEvery, n - 1), rows[n - 1], commitEvery);
      NewestOneMore(Processed(Started(db), rows, commitEvery, n - 1).counts.maxCreatedAt, rows, n - 1);
    }
  }

  // ---------------------------------------------------------------- crash

  /** What is committed is what had been reached after m rows; `lost` finished writes came after. */
  ghost predicate CommittedAt(r: Run, db: Db, rows: seq<Row>, m: nat, n: nat, lost: nat)
    requires m <= n <= |rows|
  {
    && r.committed == Reached(db, Started(db).seen, rows, m)
    && FinishedWrites(Started(db).seen, rows, n) == FinishedWrites(Started(db).seen, rows, m) + lost
  }

  /** m rows are committed; the run went on to row n, or stopped after `stop` rows on a refused commit. */
  ghost predicate PrefixAt(r: Run, db: Db, rows: seq<Row>, commitEvery: nat, m: nat, stop: nat, n: nat)
    requires n <= |rows|
  {
    && m <= stop <= n
    && if r.aborted then
         CommittedAt(r, db, rows, m, stop, commitEvery) && !Distinct(Reached(db, Started(db).seen, rows, stop).conflicts)
       else stop == n && CommittedAt(r, db, rows, m, n, r.sinceCommit) && r.sinceCommit < commitEvery
  }

  lemma {:induction false} PrefixStep(r: Run, db: Db, rows: seq<Row>, commitEvery: nat, m: nat, n: nat) returns (m': nat)
    requires n < |rows| && commitEvery >= 1 && !r.aborted
    requires PrefixAt(r, db, rows, commitEvery, m, n, n) && Follows(r, db, Started(db).seen, rows, n)
    ensures PrefixAt(Step(r, rows[n], Some(commitEvery)), db, rows, commitEvery, m', n + 1, n + 1)
  {
    var handled := Handled(r, rows[n]);
    m' := if handled.sinceCommit >= commitEvery && Distinct(handled.working.conflicts) then n + 1 else m;
  }

  lemma {:induction false} CommittedPrefix(db: Db, rows: seq<Row>, commitEvery: nat, n: nat) returns (m: nat, stop: nat)
    requires n <= |rows| && commitEvery >= 1
    ensures PrefixAt(Processed(Started(db), rows, Some(commitEvery), n), db, rows, commitEvery, m, stop, n)
  {
    if n == 0 {
      m, stop := 0, 0;
    } else {
      m, stop := CommittedPrefix(db, rows, commitEvery, n - 1);
      RunFollowsTheRows(db, rows, Some(commitEvery), n - 1);
      var before := Processed(Started(db), rows, Some(commitEvery), n - 1);
      if !before.aborted {
        m := PrefixStep(before, db, rows, commitEvery, m, n - 1);
        stop := n;
      }
    }
  }

  /** A crash after any n rows leaves the state of a prefix: fewer than commitEvery finished writes are lost,
      or exactly that many when the run had aborted on a refused commit. */
  lemma {:induction false} CrashLeavesAPrefix(db: Db, rows: seq<Row>, commitEvery: nat, n: nat) returns (m: nat, stop: nat, lost: nat)
    requires n <= |rows| && commitEvery >= 1
    ensures var r := Processed(Started(db), rows, Some(commitEvery), n);
            && m <= stop <= n && CommittedAt(r, db, rows, m, stop, lost)
            && if r.aborted then lost == commitEvery else stop == n && lost < commitEvery
  {
    m, stop := CommittedPrefix(db, rows, commitEvery, n);
    var r := Processed(Started(db), rows, Some(commitEvery), n);
    lost := if r.aborted then commitEvery else r.sinceCommit;
  }

  /** Without commits in between, as in a dry run, a crash leaves what was there before. */
  lemma {:induction false} NoCommitNoTrace(db: Db, rows: seq<Row>, n: nat)
    requires n <= |rows|
    ensures Processed(Started(db), rows, None, n).committed == db && !Processed(Started(db), rows, None, n).aborted
  {
    if n > 0 {
      NoCommitNoTrace(db, rows, n - 1);
    }
  }

  predicate Extends(earlier: Db, later: Db) {
    earlier.data <= later.data && earlier.imported <= later.imported && earlier.conflicts <= later.conflicts
  }

  lemma {:induction false} StepExtends(r: Run, row: Row, commitEvery: Option<nat>)
    requires Extends(r.committed, r.working)
    ensures var r' := Step(r, row, commitEvery); Extends(r.committed, r'.committed) && Extends(r'.committed, r'.working)
  {
  }

  lemma {:induction false} ExtendsOnward(a: Db, b: Db, c: Db)
    requires Extends(a, b) && Extends(b, c)
    ensures Extends(a, c)
  {
  }

  /** What a commit stored is still there after any later row, accepted or refused commits included. */
  lemma {:induction false} CommitsAreKept(r: Run, rows: seq<Row>, commitEvery: Option<nat>, n: nat)
    requires n <= |rows| && Extends(r.committed, r.working)
    ensures var r' := Processed(r, rows, commitEvery, n); Extends(r.committed, r'.committed) && Extends(r'.committed, r'.working)
  {
    if n > 0 {
      CommitsAreKept(r, rows, commitEvery, n - 1);
      var before := Processed(r, rows, commitEvery, n - 1);
      StepExtends(before, rows[n - 1], commitEvery);
      ExtendsOnward(r.committed, before.committed, Processed(r, rows, commitEvery, n).committed);
    }
  }

  // ---------------------------------------------------------------- no source id twice

  lemma {:induction false} ReachedImports(db: Db, rows: seq<Row>, n: nat)
    requires n <= |rows| && Distinct(db.imported)
    ensures var db' := Reached(db, Started(db).seen, rows, n);
            && Distinct(db'.imported)
            && forall id :: id in SeenAfter(Started(db).seen, rows, n) <==> id in db'.imported
  {
    if n > 0 {
      ReachedImports(db, rows, n - 1);
    }
  }

  /** Whatever the rows, no source id is imported twice, neither in the committed state nor in the open one,
      and none of those imported before the run is imported again. */
  lemma {:induction false} NothingIsImportedTwice(db: Db, rows: seq<Row>, commitEvery: nat, n: nat)
    requires n <= |rows| && commitEvery >= 1 && Distinct(db.imported)
    ensures Distinct(Processed(Started(db), rows, Some(commitEvery), n).committed.imported)
    ensures Distinct(Processed(Started(db), rows, Some(commitEvery), n).working.imported)
  {
    var m, stop := CommittedPrefix(db, rows, commitEvery, n);
    ReachedImports(db, rows, m);
    ReachedImports(db, rows, n);
    RunFollowsTheRows(db, rows, Some(commitEvery), n);
    AbortedKeepsCommitted(Started(db), rows, Some(commitEvery), n);
  }

  lemma {:induction false} AbortedKeepsCommitted(r: Run, rows: seq<Row>, commitEvery: Option<nat>, n: nat)
    requires n <= |rows| && !r.aborted
    ensures Processed(r, rows, commitEvery, n).aborted
        ==> Processed(r, rows, commitEvery, n).working == Processed(r, rows, commitEvery, n).committed
  {
    if n > 0 {
      AbortedKeepsCommitted(r, rows, commitEvery, n - 1);
    }
  }

  /** And nothing importable is left out. */
  lemma {:induction false} EverythingImportableIsImported(db: Db, rows: seq<Row>, n: nat, k: nat)
    requires k < n <= |rows| && Distinct(db.imported) && rows[k].Mappable? && rows[k].attempt.Imports?
    ensures rows[k].sourceId in Reached(db, Started(db).seen, rows, n).imported
  {
    ReachedImports(db, rows, n - 1);
    if k < n - 1 {
      EverythingImportableIsImported(db, rows, n - 1, k);
    }
  }

  // ---------------------------------------------------------------- when a run gets through

  lemma {:induction false} ConflictsAccumulate(db: Db, seen: set<string>, rows: seq<Row>, n: nat)
    requires n <= |rows|
    ensures Reached(db, seen, rows, n).conflicts == db.conflicts + ConflictsMet(seen, rows, n)
  {
    if n > 0 {
      ConflictsAccumulate(db, seen, rows, n - 1);
    }
  }

  lemma {:induction false} ConflictsOnlyGrow(seen: set<string>, rows: seq<Row>, m: nat, n: nat)
    requires m <= n <= |rows|
    ensures ConflictsMet(seen, rows, m) <= ConflictsMet(seen, rows, n)
  {
    if m < n {
      ConflictsOnlyGrow(seen, rows, m, n - 1);
    }
  }

  lemma {:induction false} PrefixOfDistinct<T>(s: seq<T>, t: seq<T>)
    requires s <= t && Distinct(t)
    ensures Distinct(s)
  {
  }

  lemma {:induction false} DistinctNeverAborts(db: Db, rows: seq<Row>, commitEvery: Option<nat>, n: nat)
    requires n <= |rows| && Distinct(db.conflicts + ConflictsMet(Started(db).seen, rows, |rows|))
    ensures !Processed(Started(db), rows, commitEvery, n).aborted
  {
    if n > 0 {
      DistinctNeverAborts(db, rows, commitEvery, n - 1);
      RunFollowsTheRows(db, rows, commitEvery, n - 1);
      ConflictsAccumulate(db, Started(db).seen, rows, n);
      ConflictsOnlyGrow(Started(db).seen, rows, n, |rows|);
      PrefixOfDistinct(db.conflicts + ConflictsMet(Started(db).seen, rows, n),
                       db.conflicts + ConflictsMet(Started(db).seen, rows, |rows|));
    }
  }

  /** The run gets through if and only if no conflict it meets has the natural key of another one, met in this
      run or recorded earlier. In that case it commits everything it reached. */
  lemma {:induction false} FinishesIffNoConflictRepeats(db: Db, rows: seq<Row>, commitEvery: Option<nat>)
    ensures !Finished(db, rows, commitEvery).aborted
       <==> Distinct(db.conflicts + ConflictsMet(Started(db).seen, rows, |rows|))
    ensures !Finished(db, rows, commitEvery).aborted
        ==> Finished(db, rows, commitEvery).committed == Reached(db, Started(db).seen, rows, |rows|)
  {
    RunFollowsTheRows(db, rows, commitEvery, |rows|);
    ConflictsAccumulate(db, Started(db).seen, rows, |rows|);
    if Distinct(db.conflicts + ConflictsMet(Started(db).seen, rows, |rows|)) {
      DistinctNeverAborts(db, rows, commitEvery, |rows|);
    }
  }

  lemma {:induction false} BadRowIsAlwaysMet(seen: set<string>, rows: seq<Row>, n: nat, k: nat)
    requires k < n <= |rows| && rows[k].Unmappable?
    ensures ConflictOf(rows[k], {}).value in ConflictsMet(seen, rows, n)
  {
    if k < n - 1 {
      BadRowIsAlwaysMet(seen, rows, n - 1, k);
    }
  }

  lemma {:induction false} DoubledIsNotDistinct<T>(s: seq<T>, t: seq<T>, x: T)
    requires x in s && x in t
    ensures !Distinct(s + t)
  {
    var i :| 0 <= i < |s| && s[i] == x;
    var j :| 0 <= j < |t| && t[j] == x;
    assert (s + t)[i] == (s + t)[|s| + j];
  }

  /** Reading an unmappable row again in a later run, which a run without a watermark does, makes that run
      abort: its conflict is already recorded. */
  lemma {:induction false} ReadingABadRowAgainAborts(
    db: Db, rows: seq<Row>, commitEvery: Option<nat>, again: seq<Row>, commitEvery': Option<nat>, k: nat, j: nat)
    requires !Finished(db, rows, commitEvery).aborted
    requires k < |rows| && j < |again| && rows[k].Unmappable? && again[j] == rows[k]
    ensures Finished(Finished(db, rows, commitEvery).committed, again, commitEvery').aborted
  {
    var db' := Finished(db, rows, commitEvery).committed;
    FinishesIffNoConflictRepeats(db, rows, commitEvery);
    ConflictsAccumulate(db, Started(db).seen, rows, |rows|);
    BadRowIsAlwaysMet(Started(db).seen, rows, |rows|, k);
    BadRowIsAlwaysMet(Started(db').seen, again, |again|, j);
    DoubledIsNotDistinct(db'.conflicts, ConflictsMet(Started(db').seen, again, |again|), ConflictOf(rows[k], {}).value);
    FinishesIffNoConflictRepeats(db', again, commitEvery');
  }
}
