/** A dry run changes no business table and leaves exactly the audit rows of the run. */
module DryRunLaws {
  import opened Options
  import opened DryRun

  // ---------------------------------------------------------------- well-formed databases

  function RunId(r: EtlRun): Id { r.id }

  predicate IdsIn<R>(rows: seq<R>, idOf: R -> Id, low: Id, high: Id) {
    forall k :: 0 <= k < |rows| ==> low <= idOf(rows[k]) < high
  }

  predicate PointsAtARun(runs: seq<EtlRun>, d: DeletedRow) {
    exists j :: 0 <= j < |runs| && runs[j].id == d.run
  }

  predicate DistinctRuns(runs: seq<EtlRun>) {
    forall j, k :: 0 <= j < k < |runs| ==> runs[j].id != runs[k].id
  }

  predicate DistinctKeys(rows: seq<ConflictRow>) {
    forall j, k :: 0 <= j < k < |rows| ==> rows[j].content.key != rows[k].content.key
  }

  predicate IdsBelowNext(db: Db) {
    && IdsIn(db.runs, RunId, 0, db.next) && IdsIn(db.conflicts, ConflictId, 0, db.next)
    && IdsIn(db.deleted, DeletedId, 0, db.next) && IdsIn(db.bulk, BulkId, 0, db.next)
  }

  /** Primary, foreign and natural keys. */
  predicate WellFormed(db: Db) {
    && IdsBelowNext(db) && DistinctRuns(db.runs) && DistinctKeys(db.conflicts)
    && forall k :: 0 <= k < |db.deleted| ==> PointsAtARun(db.runs, db.deleted[k])
  }

  // ---------------------------------------------------------------- recording conflicts

  lemma {:induction false} UnseenKeys(known: seq<Conflict>, added: seq<Conflict>, key: Key)
    ensures HasKey(known + added, key) <==> HasKey(known, key) || HasKey(added, key)
  {
    var all := known + added;
    assert forall k :: 0 <= k < |known| ==> all[k] == known[k];
    assert forall k :: 0 <= k < |added| ==> all[|known| + k] == added[k];
  }

  lemma {:induction false} UnseenInParts(known: seq<Conflict>, a: seq<Conflict>, b: seq<Conflict>)
    ensures Unseen(known, a + b) == Unseen(known, a) + Unseen(known + Unseen(known, a), b)
  {
    if b == [] {
      assert a + b == a;
    } else {
      var init, last := b[..|b| - 1], b[|b| - 1];
      UnseenInParts(known, a, init);
      assert (a + b)[..|a + b| - 1] == a + init;
      var first, second := Unseen(known, a), Unseen(known + Unseen(known, a), init);
      UnseenKeys(first, second, last.key);
      UnseenKeys(known, first, last.key);
      assert first + (second + [last]) == first + second + [last];
    }
  }

  /** What recording appends. */
  ghost predicate Records(db: Db, db': Db, cs: seq<Conflict>) {
    && db'.business == db.business && db'.runs == db.runs && db'.deleted == db.deleted && db'.bulk == db.bulk
    && db.conflicts <= db'.conflicts && db.next <= db'.next
    && IdsIn(db'.conflicts[|db.conflicts|..], ConflictId, db.next, db'.next)
    && Contents(db'.conflicts[|db.conflicts|..]) == Unseen(Contents(db.conflicts), cs)
  }

  lemma {:induction false} KnownMeans(rows: seq<ConflictRow>, base: nat, key: Key)
    requires base <= |rows|
    ensures Known(rows, key) <==> HasKey(Contents(rows[..base]), key) || HasKey(Contents(rows[base..]), key)
  {
  }

  lemma {:induction false} RecordedRecords(db: Db, cs: seq<Conflict>)
    ensures Records(db, Recorded(db, cs), cs)
  {
    if cs != [] {
      var init, c := cs[..|cs| - 1], cs[|cs| - 1];
      RecordedRecords(db, init);
      var before, after := Recorded(db, init), Recorded(db, cs);
      KnownMeans(before.conflicts, |db.conflicts|, c.key);
      assert before.conflicts[..|db.conflicts|] == db.conflicts;
      if after != before {
        assert after.conflicts[|db.conflicts|..] == before.conflicts[|db.conflicts|..] + [ConflictRow(before.next, c)];
      }
    }
  }

  // ---------------------------------------------------------------- what the run has written so far

  function Added<R>(base: seq<R>, rows: seq<R>): seq<R> {
    if |base| <= |rows| then rows[|base|..] else []
  }

  ghost predicate Appends<R>(base: seq<R>, rows: seq<R>, idOf: R -> Id, low: Id, high: Id) {
    base <= rows && IdsIn(Added(base, rows), idOf, low, high)
  }

  ghost predicate RunsTrace(start: Db, db: Db, works: seq<Work>, n: nat)
    requires n <= |works|
  {
    && Appends(start.runs, db.runs, RunId, start.next, db.next)
    && DistinctRuns(Added(start.runs, db.runs)) && |Added(start.runs, db.runs)| == n
    && forall k :: 0 <= k < n ==> Added(start.runs, db.runs)[k].content == ContentOf(works[k])
  }

  ghost predicate ConflictsTrace(start: Db, db: Db, works: seq<Work>, n: nat)
    requires n <= |works|
  {
    && Appends(start.conflicts, db.conflicts, ConflictId, start.next, db.next)
    && Contents(Added(start.conflicts, db.conflicts)) == Unseen(Contents(start.conflicts), AllConflicts(works, n))
  }

  ghost predicate SweepsTrace(start: Db, db: Db, works: seq<Work>, n: nat)
    requires n <= |works|
  {
    && Appends(start.deleted, db.deleted, DeletedId, start.next, db.next)
    && SweepsAre(Added(start.deleted, db.deleted), Added(start.runs, db.runs), AllSweeps(works, n))
  }

  /** The database after the first n tables, in terms of what those tables were to record. */
  ghost predicate Trace(start: Db, db: Db, works: seq<Work>, n: nat)
    requires n <= |works|
  {
    && start.next <= db.next && db.bulk == start.bulk
    && RunsTrace(start, db, works, n) && ConflictsTrace(start, db, works, n) && SweepsTrace(start, db, works, n)
  }

  lemma {:induction false} AppendOne<R>(base: seq<R>, rows: seq<R>, r: R, idOf: R -> Id, low: Id, high: Id, high': Id)
    requires Appends(base, rows, idOf, low, high) && low <= high <= high' && low <= idOf(r) < high'
    ensures Appends(base, rows + [r], idOf, low, high') && Added(base, rows + [r]) == Added(base, rows) + [r]
  {
  }

  lemma {:induction false} AppendMany<R>(base: seq<R>, rows: seq<R>, rows': seq<R>, idOf: R -> Id, low: Id, high: Id, high': Id)
    requires Appends(base, rows, idOf, low, high) && low <= high <= high'
    requires rows <= rows' && IdsIn(rows'[|rows|..], idOf, high, high')
    ensures Appends(base, rows', idOf, low, high') && Added(base, rows') == Added(base, rows) + rows'[|rows|..]
  {
  }

  lemma {:induction false} RunsTraceStep(start: Db, db: Db, db': Db, works: seq<Work>, n: nat)
    requires n < |works| && RunsTrace(start, db, works, n) && start.next <= db.next < db'.next
    requires db'.runs == db.runs + [EtlRun(db.next, ContentOf(works[n]))]
    ensures RunsTrace(start, db', works, n + 1)
  {
  }

  lemma {:induction false} ContentsInParts(a: seq<ConflictRow>, b: seq<ConflictRow>)
    ensures Contents(a + b) == Contents(a) + Contents(b)
  {
  }

  /** The conflicts of one more table, on top of those added before. */
  lemma {:induction false} UnseenOneMore(known: seq<ConflictRow>, added: seq<ConflictRow>, more: seq<ConflictRow>, met: seq<Conflict>, cs: seq<Conflict>)
    requires Contents(added) == Unseen(Contents(known), met)
    requires Contents(more) == Unseen(Contents(known + added), cs)
    ensures Contents(added + more) == Unseen(Contents(known), met + cs)
  {
    ContentsInParts(known, added);
    ContentsInParts(added, more);
    UnseenInParts(Contents(known), met, cs);
  }

  lemma {:induction false} ConflictsTraceStep(start: Db, db: Db, db': Db, works: seq<Work>, n: nat)
    requires n < |works| && ConflictsTrace(start, db, works, n) && start.next <= db.next <= db'.next
    requires db.conflicts <= db'.conflicts && IdsIn(db'.conflicts[|db.conflicts|..], ConflictId, db.next, db'.next)
    requires Contents(db'.conflicts[|db.conflicts|..]) == Unseen(Contents(db.conflicts), works[n].conflicts)
    ensures ConflictsTrace(start, db', works, n + 1)
  {
    AppendMany(start.conflicts, db.conflicts, db'.conflicts, ConflictId, start.next, db.next, db'.next);
    var added, more := Added(start.conflicts, db.conflicts), db'.conflicts[|db.conflicts|..];
    assert db.conflicts == start.conflicts + added;
    UnseenOneMore(start.conflicts, added, more, AllConflicts(works, n), works[n].conflicts);
  }

  lemma {:induction false} SweepsExtend(rows: seq<DeletedRow>, runs: seq<EtlRun>, sweeps: seq<Sweep>, run: EtlRun, deleted: seq<nat>, first: Id)
    requires SweepsAre(rows, runs, sweeps)
    ensures SweepsAre(rows + Swept(run.id, deleted, first), runs + [run], sweeps + SweepOf(|runs|, deleted))
  {
  }

  lemma {:induction false} SweepsTraceStep(start: Db, db: Db, db': Db, works: seq<Work>, n: nat, first: Id)
    requires n < |works| && SweepsTrace(start, db, works, n) && RunsTrace(start, db, works, n)
    requires start.next <= db.next <= first && first + |works[n].deleted| <= db'.next
    requires db'.runs == db.runs + [EtlRun(db.next, ContentOf(works[n]))]
    requires db'.deleted == db.deleted + Swept(db.next, works[n].deleted, first)
    ensures SweepsTrace(start, db', works, n + 1)
  {
    var more, run := Swept(db.next, works[n].deleted, first), EtlRun(db.next, ContentOf(works[n]));
    assert db'.deleted[|db.deleted|..] == more;
    AppendMany(start.deleted, db.deleted, db'.deleted, DeletedId, start.next, db.next, db'.next);
    assert Added(start.runs, db'.runs) == Added(start.runs, db.runs) + [run];
    SweepsExtend(Added(start.deleted, db.deleted), Added(start.runs, db.runs), AllSweeps(works, n), run, works[n].deleted, first);
  }

  lemma {:induction false} TraceStep(start: Db, db: Db, works: seq<Work>, n: nat)
    requires n < |works| && Trace(start, db, works, n)
    ensures Trace(start, Worked(db, works[n]), works, n + 1)
  {
    var w := works[n];
    var run := EtlRun(db.next, ContentOf(w));
    var begun := db.(business := w.business, runs := db.runs + [run], next := db.next + 1);
    var db' := Worked(db, w);
    RecordedRecords(begun, w.conflicts);
    var recorded := Recorded(begun, w.conflicts);
    assert db' == recorded.(deleted := recorded.deleted + Swept(run.id, w.deleted, recorded.next), next := recorded.next + |w.deleted|);
    RunsTraceStep(start, db, db', works, n);
    ConflictsTraceStep(start, db, db', works, n);
    SweepsTraceStep(start, db, db', works, n, recorded.next);
  }

  lemma {:induction false} TraceUpTo(start: Db, works: seq<Work>, n: nat)
    requires n <= |works|
    ensures Trace(start, WorkedUpTo(start, works, n), works, n)
  {
    if n > 0 {
      TraceUpTo(start, works, n - 1);
      TraceStep(start, WorkedUpTo(start, works, n - 1), works, n - 1);
    }
  }

  // ---------------------------------------------------------------- picking out the new rows

  lemma {:induction false} OldRowsAreNotNew<R>(rows: seq<R>, idOf: R -> Id, before: set<Id>)
    requires forall k :: 0 <= k < |rows| ==> idOf(rows[k]) in before
    ensures NewRows(rows, idOf, before) == []
  {
    if rows != [] {
      OldRowsAreNotNew(rows[..|rows| - 1], idOf, before);
    }
  }

  lemma {:induction false} NewRowsAreTheAdded<R>(base: seq<R>, added: seq<R>, idOf: R -> Id, before: set<Id>)
    requires forall k :: 0 <= k < |base| ==> idOf(base[k]) in before
    requires forall k :: 0 <= k < |added| ==> idOf(added[k]) !in before
    ensures NewRows(base + added, idOf, before) == added
  {
    if added == [] {
      assert base + added == base;
      OldRowsAreNotNew(base, idOf, before);
    } else {
      NewRowsAreTheAdded(base, added[..|added| - 1], idOf, before);
      assert (base + added)[..|base + added| - 1] == base + added[..|added| - 1];
    }
  }

  lemma {:induction false} DiffFindsTheAdded<R>(base: seq<R>, rows: seq<R>, idOf: R -> Id, low: Id, high: Id)
    requires IdsIn(base, idOf, 0, low) && Appends(base, rows, idOf, low, high)
    ensures NewRows(rows, idOf, IdsOf(base, idOf)) == Added(base, rows)
  {
    NewRowsAreTheAdded(base, Added(base, rows), idOf, IdsOf(base, idOf));
    assert rows == base + Added(base, rows);
  }

  // ---------------------------------------------------------------- putting deleted rows back

  lemma {:induction false} IndexOfDistinct(runs: seq<EtlRun>, k: nat)
    requires DistinctRuns(runs) && k < |runs|
    ensures IndexOf(runs, runs[k].id) == Some(k)
  {
  }

  /** Rows of captured runs all come back, under the new id of their run. */
  lemma {:induction false} CapturedComeBack(rows: seq<DeletedRow>, captured: seq<EtlRun>, sweeps: seq<Sweep>, firstRun: Id, first: Id)
    requires DistinctRuns(captured) && SweepsAre(rows, captured, sweeps)
    ensures SweepsAre(FreshDeleted(rows, captured, firstRun, first), FreshRuns(captured, firstRun), sweeps)
    ensures IdsIn(FreshDeleted(rows, captured, firstRun, first), DeletedId, first, first + |rows|)
  {
    if rows != [] {
      CapturedComeBack(rows[..|rows| - 1], captured, sweeps[..|sweeps| - 1], firstRun, first);
      IndexOfDistinct(captured, sweeps[|sweeps| - 1].work);
    }
  }

  predicate Uncaptured(more: seq<DeletedRow>, captured: seq<EtlRun>) {
    forall j, k :: 0 <= j < |more| && 0 <= k < |captured| ==> more[j].run != captured[k].id
  }

  /** Rows of a run that was not captured do not. */
  lemma {:induction false} UncapturedStayOut(rows: seq<DeletedRow>, more: seq<DeletedRow>, captured: seq<EtlRun>, firstRun: Id, first: Id)
    requires Uncaptured(more, captured)
    ensures FreshDeleted(rows + more, captured, firstRun, first) == FreshDeleted(rows, captured, firstRun, first)
  {
    if more == [] {
      assert rows + more == rows;
    } else {
      UncapturedStayOut(rows, more[..|more| - 1], captured, firstRun, first);
      assert (rows + more)[..|rows + more| - 1] == rows + more[..|more| - 1];
      assert IndexOf(captured, more[|more| - 1].run).None?;
    }
  }

  lemma {:induction false} SweepsInParts(works: seq<Work>, n: nat, m: nat)
    requires n <= m <= n + 1 && m <= |works|
    ensures AllSweeps(works, m) == AllSweeps(works, n) + if m > n then SweepOf(n, works[n].deleted) else []
  {
  }

  /** The sweeps of the first n tables are the first rows. */
  lemma {:induction false} KeptRows(rows: seq<DeletedRow>, runs: seq<EtlRun>, works: seq<Work>, n: nat, m: nat)
    requires n <= m <= n + 1 && m <= |works| && |runs| == m && SweepsAre(rows, runs, AllSweeps(works, m))
    ensures |AllSweeps(works, n)| <= |rows|
    ensures SweepsAre(rows[..|AllSweeps(works, n)|], runs[..n], AllSweeps(works, n))
  {
    SweepsInParts(works, n, m);
    assert forall j :: 0 <= j < |AllSweeps(works, n)| ==> AllSweeps(works, m)[j] == AllSweeps(works, n)[j];
  }

  /** The others belong to the table that broke off. */
  lemma {:induction false} LeftOutRows(rows: seq<DeletedRow>, runs: seq<EtlRun>, works: seq<Work>, n: nat, m: nat)
    requires n <= m <= n + 1 && m <= |works| && |runs| == m && DistinctRuns(runs) && SweepsAre(rows, runs, AllSweeps(works, m))
    ensures |AllSweeps(works, n)| <= |rows|
    ensures Uncaptured(rows[|AllSweeps(works, n)|..], runs[..n])
  {
    SweepsInParts(works, n, m);
    var base := |AllSweeps(works, n)|;
    forall j, k | 0 <= j < |rows| - base && 0 <= k < n ensures rows[base..][j].run != runs[..n][k].id {
      assert AllSweeps(works, m)[base + j] == SweepOf(n, works[n].deleted)[j];
      assert rows[base + j].run == runs[n].id;
    }
  }

  lemma {:induction false} KeptComeBackAlone(kept: seq<DeletedRow>, more: seq<DeletedRow>, captured: seq<EtlRun>, sweeps: seq<Sweep>, firstRun: Id, first: Id)
    requires DistinctRuns(captured) && SweepsAre(kept, captured, sweeps) && Uncaptured(more, captured)
    ensures var back := FreshDeleted(kept + more, captured, firstRun, first);
            SweepsAre(back, FreshRuns(captured, firstRun), sweeps) && IdsIn(back, DeletedId, first, first + |back|)
  {
    CapturedComeBack(kept, captured, sweeps, firstRun, first);
    UncapturedStayOut(kept, more, captured, firstRun, first);
  }

  lemma {:induction false} OnlyCapturedComeBack(rows: seq<DeletedRow>, runs: seq<EtlRun>, works: seq<Work>, n: nat, m: nat, firstRun: Id, first: Id)
    requires n <= m <= n + 1 && m <= |works| && |runs| == m && DistinctRuns(runs) && SweepsAre(rows, runs, AllSweeps(works, m))
    ensures var back := FreshDeleted(rows, runs[..n], firstRun, first);
            && SweepsAre(back, FreshRuns(runs[..n], firstRun), AllSweeps(works, n))
            && IdsIn(back, DeletedId, first, first + |back|)
  {
    KeptRows(rows, runs, works, n, m);
    LeftOutRows(rows, runs, works, n, m);
    var kept, more := rows[..|AllSweeps(works, n)|], rows[|AllSweeps(works, n)|..];
    assert rows == kept + more;
    KeptComeBackAlone(kept, more, runs[..n], AllSweeps(works, n), firstRun, first);
  }

  // ---------------------------------------------------------------- main results

  predicate RunsAre(runs: seq<EtlRun>, works: seq<Work>, n: nat)
    requires n <= |works|
  {
    |runs| == n && forall k :: 0 <= k < n ==> runs[k].content == ContentOf(works[k])
  }

  predicate PayloadsAre(rows: seq<BulkRow>, summary: seq<nat>) {
    |rows| == |summary| && forall k :: 0 <= k < |rows| ==> rows[k].payload == summary[k]
  }

  /** db is start, plus for the audit tables: one run row per completed table; the conflicts that the first
      m tables met and that were not known; the rows swept by completed tables, under the new run row of
      their table; and the summary, if any. */
  ghost predicate OnlyAuditAdded(start: Db, db: Db, works: seq<Work>, n: nat, m: nat, summary: seq<nat>)
    requires n <= |works| && m <= |works|
  {
    && db.business == start.business
    && RunsAre(Added(start.runs, db.runs), works, n)
    && Contents(Added(start.conflicts, db.conflicts)) == Unseen(Contents(start.conflicts), AllConflicts(works, m))
    && SweepsAre(Added(start.deleted, db.deleted), Added(start.runs, db.runs), AllSweeps(works, n))
    && PayloadsAre(Added(start.bulk, db.bulk), summary)
  }

  /** Nothing of start is gone or changed, and what is new has ids never used before. */
  ghost predicate Keeps(start: Db, db: Db) {
    && start.next <= db.next
    && Appends(start.runs, db.runs, RunId, start.next, db.next) && DistinctRuns(Added(start.runs, db.runs))
    && Appends(start.conflicts, db.conflicts, ConflictId, start.next, db.next)
    && Appends(start.deleted, db.deleted, DeletedId, start.next, db.next)
    && Appends(start.bulk, db.bulk, BulkId, start.next, db.next)
  }

  lemma {:induction false} PutBackKeeps(start: Db, next: Id, captured: seq<EtlRun>, conflicts: seq<ConflictRow>, deleted: seq<DeletedRow>, bulk: seq<BulkRow>)
    requires start.next <= next
    requires var first := next + |captured| + |conflicts|;
             var back := FreshDeleted(deleted, captured, next, first);
             IdsIn(back, DeletedId, first, first + |back|)
    ensures Keeps(start, PutBack(start, next, captured, conflicts, deleted, bulk))
  {
  }

  /** The diff by ids finds exactly what the run appended. */
  lemma {:induction false} ReplayedIsPutBack(start: Db, flushed: Db, captured: seq<EtlRun>)
    requires IdsBelowNext(start)
    requires Appends(start.conflicts, flushed.conflicts, ConflictId, start.next, flushed.next)
    requires Appends(start.deleted, flushed.deleted, DeletedId, start.next, flushed.next)
    requires Appends(start.bulk, flushed.bulk, BulkId, start.next, flushed.next)
    ensures Replayed(start, flushed, captured)
         == PutBack(start, flushed.next, captured, Added(start.conflicts, flushed.conflicts),
                    Added(start.deleted, flushed.deleted), Added(start.bulk, flushed.bulk))
  {
    DiffFindsTheAdded(start.conflicts, flushed.conflicts, ConflictId, start.next, flushed.next);
    DiffFindsTheAdded(start.deleted, flushed.deleted, DeletedId, start.next, flushed.next);
    DiffFindsTheAdded(start.bulk, flushed.bulk, BulkId, start.next, flushed.next);
  }

  lemma {:induction false} PutBackIsOnlyAudit(start: Db, next: Id, runs: seq<EtlRun>, conflicts: seq<ConflictRow>, deleted: seq<DeletedRow>,
                                              bulk: seq<BulkRow>, works: seq<Work>, n: nat, m: nat, summary: seq<nat>)
    requires n <= m <= |works| && RunsAre(runs, works, m)
    requires Contents(conflicts) == Unseen(Contents(start.conflicts), AllConflicts(works, m)) && PayloadsAre(bulk, summary)
    requires SweepsAre(FreshDeleted(deleted, runs[..n], next, next + n + |conflicts|), FreshRuns(runs[..n], next), AllSweeps(works, n))
    ensures OnlyAuditAdded(start, PutBack(start, next, runs[..n], conflicts, deleted, bulk), works, n, m, summary)
  {
  }

  lemma {:induction false} PutBackLaws(start: Db, next: Id, runs: seq<EtlRun>, conflicts: seq<ConflictRow>, deleted: seq<DeletedRow>,
                                       bulk: seq<BulkRow>, works: seq<Work>, n: nat, m: nat, summary: seq<nat>)
    requires n <= m <= n + 1 && m <= |works| && start.next <= next && RunsAre(runs, works, m) && DistinctRuns(runs)
    requires Contents(conflicts) == Unseen(Contents(start.conflicts), AllConflicts(works, m)) && PayloadsAre(bulk, summary)
    requires SweepsAre(deleted, runs, AllSweeps(works, m))
    ensures OnlyAuditAdded(start, PutBack(start, next, runs[..n], conflicts, deleted, bulk), works, n, m, summary)
  {
    OnlyCapturedComeBack(deleted, runs, works, n, m, next, next + n + |conflicts|);
    PutBackIsOnlyAudit(start, next, runs, conflicts, deleted, bulk, works, n, m, summary);
  }

  lemma {:induction false} PutBackKeepsAll(start: Db, next: Id, runs: seq<EtlRun>, conflicts: seq<ConflictRow>, deleted: seq<DeletedRow>,
                                           bulk: seq<BulkRow>, works: seq<Work>, n: nat, m: nat)
    requires n <= m <= n + 1 && m <= |works| && start.next <= next && |runs| == m && DistinctRuns(runs)
    requires SweepsAre(deleted, runs, AllSweeps(works, m))
    ensures Keeps(start, PutBack(start, next, runs[..n], conflicts, deleted, bulk))
  {
    OnlyCapturedComeBack(deleted, runs, works, n, m, next, next + n + |conflicts|);
    PutBackKeeps(start, next, runs[..n], conflicts, deleted, bulk);
  }

  /** The replay of a flushed run: m tables begun, n of them completed. */
  lemma {:induction false} ReplayKeepsOnlyAudit(start: Db, flushed: Db, works: seq<Work>, n: nat, m: nat, summary: seq<nat>)
    requires IdsBelowNext(start) && n <= m <= n + 1 && m <= |works| && start.next <= flushed.next
    requires RunsTrace(start, flushed, works, m) && ConflictsTrace(start, flushed, works, m) && SweepsTrace(start, flushed, works, m)
    requires Appends(start.bulk, flushed.bulk, BulkId, start.next, flushed.next)
    requires PayloadsAre(Added(start.bulk, flushed.bulk), summary)
    ensures OnlyAuditAdded(start, Replayed(start, flushed, Added(start.runs, flushed.runs)[..n]), works, n, m, summary)
    ensures Keeps(start, Replayed(start, flushed, Added(start.runs, flushed.runs)[..n]))
  {
    ReplayedIsPutBack(start, flushed, Added(start.runs, flushed.runs)[..n]);
    PutBackLaws(start, flushed.next, Added(start.runs, flushed.runs), Added(start.conflicts, flushed.conflicts),
                Added(start.deleted, flushed.deleted), Added(start.bulk, flushed.bulk), works, n, m, summary);
    PutBackKeepsAll(start, flushed.next, Added(start.runs, flushed.runs), Added(start.conflicts, flushed.conflicts),
                    Added(start.deleted, flushed.deleted), Added(start.bulk, flushed.bulk), works, n, m);
  }

  function Begun(works: seq<Work>): (m: nat)
    ensures Completed(works) <= m <= |works|
  {
    if Completed(works) < |works| then Completed(works) + 1 else |works|
  }

  lemma {:induction false} HigherNext(start: Db, db: Db, works: seq<Work>, n: nat, db': Db)
    requires n <= |works| && Trace(start, db, works, n) && db.next <= db'.next
    requires db'.runs == db.runs && db'.conflicts == db.conflicts && db'.deleted == db.deleted
    ensures RunsTrace(start, db', works, n) && ConflictsTrace(start, db', works, n) && SweepsTrace(start, db', works, n)
  {
  }

  lemma {:induction false} NothingSummed(rows: seq<BulkRow>, low: Id, high: Id)
    ensures Appends(rows, rows, BulkId, low, high) && PayloadsAre(Added(rows, rows), [])
  {
  }

  /** The runs captured before the last table are the run rows without the last one. */
  lemma {:induction false} CapturedAreTheFirst(start: Db, done: Db, broken: Db, run: EtlRun)
    requires start.runs <= done.runs && broken.runs == done.runs + [run]
    ensures Added(start.runs, broken.runs)[..|Captured(start, done)|] == Captured(start, done)
  {
  }

  lemma {:induction false} BrokenOff(start: Db, works: seq<Work>)
    requires IdsBelowNext(start) && Completed(works) < |works|
    ensures var n := Completed(works);
            var done := WorkedUpTo(start, works, n);
            var db := Replayed(start, Worked(done, works[n]), Captured(start, done));
            OnlyAuditAdded(start, db, works, n, n + 1, []) && Keeps(start, db)
  {
    var n := Completed(works);
    var done := WorkedUpTo(start, works, n);
    TraceUpTo(start, works, n);
    TraceStep(start, done, works, n);
    var broken := Worked(done, works[n]);
    CapturedAreTheFirst(start, done, broken, broken.runs[|done.runs|]);
    NothingSummed(start.bulk, start.next, broken.next);
    ReplayKeepsOnlyAudit(start, broken, works, n, n + 1, []);
  }

  lemma {:induction false} RanThrough(start: Db, works: seq<Work>, summary: nat)
    requires IdsBelowNext(start) && Completed(works) == |works|
    ensures var n := |works|;
            var done := WorkedUpTo(start, works, n);
            var db := Replayed(start, Summed(done, summary), Captured(start, done));
            OnlyAuditAdded(start, db, works, n, n, [summary]) && Keeps(start, db)
  {
    var n := |works|;
    var done := WorkedUpTo(start, works, n);
    TraceUpTo(start, works, n);
    var summed := Summed(done, summary);
    assert Added(start.runs, summed.runs)[..n] == Captured(start, done);
    NothingSummed(start.bulk, start.next, done.next);
    AppendOne(start.bulk, done.bulk, BulkRow(done.next, summary), BulkId, start.next, done.next, summed.next);
    HigherNext(start, done, works, n, summed);
    ReplayKeepsOnlyAudit(start, summed, works, n, n, [summary]);
  }

  lemma {:induction false} IdsOnlyGrow(start: Db, works: seq<Work>, n: nat)
    requires n <= |works|
    ensures start.next <= WorkedUpTo(start, works, n).next
  {
    TraceUpTo(start, works, n);
  }

  /** Whether it finishes or raises in some table, a dry run changes no business table and adds exactly the
      audit rows of the run; when nothing can be replayed it changes no table at all. */
  lemma {:induction false} DryRunIsTransparent(start: Db, works: seq<Work>, summary: nat, flushFails: bool)
    requires IdsBelowNext(start)
    ensures var db := DryRunOf(start, works, summary, flushFails);
            if !AuditLost(works, Completed(works), flushFails) then
              && OnlyAuditAdded(start, db, works, Completed(works), Begun(works), if Completed(works) == |works| then [summary] else [])
              && Keeps(start, db)
            else db == start.(next := db.next) && start.next <= db.next
  {
    if Completed(works) < |works| {
      BrokenOff(start, works);
      IdsOnlyGrow(start, works, Completed(works) + 1);
    } else {
      RanThrough(start, works, summary);
      IdsOnlyGrow(start, works, |works|);
    }
  }

  // ---------------------------------------------------------------- the keys of the schema

  lemma {:induction false} UnseenAreNew(known: seq<Conflict>, cs: seq<Conflict>)
    ensures forall k :: 0 <= k < |Unseen(known, cs)| ==> !HasKey(known, Unseen(known, cs)[k].key)
    ensures forall j, k :: 0 <= j < k < |Unseen(known, cs)| ==> Unseen(known, cs)[j].key != Unseen(known, cs)[k].key
  {
    if cs != [] {
      UnseenAreNew(known, cs[..|cs| - 1]);
    }
  }

  lemma {:induction false} IdsTogether<R>(base: seq<R>, rows: seq<R>, idOf: R -> Id, low: Id, high: Id)
    requires IdsIn(base, idOf, 0, low) && low <= high && Appends(base, rows, idOf, low, high)
    ensures IdsIn(rows, idOf, 0, high)
  {
  }

  lemma {:induction false} RunsTogether(base: seq<EtlRun>, rows: seq<EtlRun>, low: Id, high: Id)
    requires IdsIn(base, RunId, 0, low) && DistinctRuns(base) && Appends(base, rows, RunId, low, high) && DistinctRuns(Added(base, rows))
    ensures DistinctRuns(rows)
  {
  }

  lemma {:induction false} KeysTogether(base: seq<ConflictRow>, rows: seq<ConflictRow>, cs: seq<Conflict>)
    requires base <= rows && DistinctKeys(base) && Contents(Added(base, rows)) == Unseen(Contents(base), cs)
    ensures DistinctKeys(rows)
  {
    UnseenAreNew(Contents(base), cs);
    var added := Contents(Added(base, rows));
    assert rows == base + Added(base, rows);
    forall j, k | 0 <= j < k < |rows| ensures rows[j].content.key != rows[k].content.key {
      if k >= |base| {
        assert rows[k].content == added[k - |base|];
        if j < |base| {
          assert Contents(base)[j] == rows[j].content;
          assert !HasKey(Contents(base), added[k - |base|].key);
        } else {
          assert rows[j].content == added[j - |base|];
        }
      }
    }
  }

  lemma {:induction false} ParentsTogether(start: Db, db: Db, works: seq<Work>, n: nat)
    requires n <= |works| && WellFormed(start) && Keeps(start, db)
    requires SweepsAre(Added(start.deleted, db.deleted), Added(start.runs, db.runs), AllSweeps(works, n))
    ensures forall k :: 0 <= k < |db.deleted| ==> PointsAtARun(db.runs, db.deleted[k])
  {
  }

  /** Every key of the schema still holds after a dry run: in particular every replayed deleted row points
      at a run row that is there. */
  lemma {:induction false} DryRunKeepsWellFormed(start: Db, works: seq<Work>, summary: nat, flushFails: bool)
    requires WellFormed(start)
    ensures WellFormed(DryRunOf(start, works, summary, flushFails))
  {
    var db := DryRunOf(start, works, summary, flushFails);
    DryRunIsTransparent(start, works, summary, flushFails);
    if !AuditLost(works, Completed(works), flushFails) {
      IdsTogether(start.runs, db.runs, RunId, start.next, db.next);
      IdsTogether(start.conflicts, db.conflicts, ConflictId, start.next, db.next);
      IdsTogether(start.deleted, db.deleted, DeletedId, start.next, db.next);
      IdsTogether(start.bulk, db.bulk, BulkId, start.next, db.next);
      RunsTogether(start.runs, db.runs, start.next, db.next);
      KeysTogether(start.conflicts, db.conflicts, AllConflicts(works, Begun(works)));
      ParentsTogether(start, db, works, Completed(works));
    }
  }
}
