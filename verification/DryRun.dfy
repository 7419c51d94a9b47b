/** A dry run: import everything, roll everything back, and put back only the audit rows. */
module DryRun {
  import opened Options

  type Id = nat
  type Key = nat
  type TableName = nat

  /** All tables that are not audit tables, whatever is in them. */
  type Business = map<nat, nat>

  datatype RunContent = RunContent(table: TableName, counters: nat, errors: nat)
  datatype EtlRun = EtlRun(id: Id, content: RunContent)

  /** key is the natural key, on which a second record of the same conflict is dropped. */
  datatype Conflict = Conflict(key: Key, value: nat)
  datatype ConflictRow = ConflictRow(id: Id, content: Conflict)

  datatype DeletedRow = DeletedRow(id: Id, run: Id, sourceId: nat)
  datatype BulkRow = BulkRow(id: Id, payload: nat)

  /** next is above every id drawn so far, also by rows that were rolled back. */
  datatype Db = Db(
    business: Business, runs: seq<EtlRun>, conflicts: seq<ConflictRow>, deleted: seq<DeletedRow>, bulk: seq<BulkRow>, next: Id)

  datatype Outcome = Fine | Raises | Aborts

  /** What the import of one table writes before it ends: well, with an exception, or with a database
      error that leaves the transaction unusable. */
  datatype Work = Work(table: TableName, business: Business, conflicts: seq<Conflict>, deleted: seq<nat>, counters: nat, outcome: Outcome)

  // ---------------------------------------------------------------- importing one table

  predicate Known(rows: seq<ConflictRow>, key: Key) {
    exists k :: 0 <= k < |rows| && rows[k].content.key == key
  }

  function Recorded(db: Db, conflicts: seq<Conflict>): (db': Db)
    ensures db'.business == db.business && db'.runs == db.runs && db'.deleted == db.deleted && db'.bulk == db.bulk
    ensures db.next <= db'.next
  {
    if conflicts == [] then db
    else
      var before := Recorded(db, conflicts[..|conflicts| - 1]);
      var c := conflicts[|conflicts| - 1];
      if Known(before.conflicts, c.key) then before
      else before.(conflicts := before.conflicts + [ConflictRow(before.next, c)], next := before.next + 1)
  }

  function Swept(run: Id, deleted: seq<nat>, first: Id): seq<DeletedRow> {
    seq(|deleted|, k requires 0 <= k < |deleted| => DeletedRow(first + k, run, deleted[k]))
  }

  /** The run row is there from the start, and its errors count the exception. */
  function Worked(db: Db, w: Work): Db {
    var run := EtlRun(db.next, RunContent(w.table, if w.outcome.Fine? then w.counters else 0, if w.outcome.Fine? then 0 else 1));
    var begun := db.(business := w.business, runs := db.runs + [run], next := db.next + 1);
    var recorded := Recorded(begun, w.conflicts);
    recorded.(deleted := recorded.deleted + Swept(run.id, w.deleted, recorded.next), next := recorded.next + |w.deleted|)
  }

  /** The tables before the first that fails. */
  function Completed(works: seq<Work>): (n: nat)
    ensures n <= |works|
    ensures forall k :: 0 <= k < n ==> works[k].outcome.Fine?
    ensures n < |works| ==> !works[n].outcome.Fine?
  {
    if works == [] || !works[0].outcome.Fine? then 0 else 1 + Completed(works[1..])
  }

  function WorkedUpTo(db: Db, works: seq<Work>, n: nat): Db
    requires n <= |works|
  {
    if n == 0 then db else Worked(WorkedUpTo(db, works, n - 1), works[n - 1])
  }

  // ---------------------------------------------------------------- replay

  /** Position of the run row with this id. */
  function IndexOf(runs: seq<EtlRun>, id: Id): (k: Option<nat>)
    ensures k.Some? ==> k.value < |runs| && runs[k.value].id == id
    ensures k.None? ==> forall j :: 0 <= j < |runs| ==> runs[j].id != id
  {
    if runs == [] then None
    else if runs[|runs| - 1].id == id then Some(|runs| - 1)
    else IndexOf(runs[..|runs| - 1], id)
  }

  function FreshRuns(captured: seq<EtlRun>, first: Id): seq<EtlRun> {
    seq(|captured|, k requires 0 <= k < |captured| => EtlRun(first + k, captured[k].content))
  }

  function FreshConflicts(rows: seq<ConflictRow>, first: Id): seq<ConflictRow> {
    seq(|rows|, k requires 0 <= k < |rows| => ConflictRow(first + k, rows[k].content))
  }

  /** Rows whose run was not captured are left out. */
  function FreshDeleted(rows: seq<DeletedRow>, captured: seq<EtlRun>, firstRun: Id, first: Id): (r: seq<DeletedRow>)
    ensures |r| <= |rows|
  {
    if rows == [] then []
    else
      var before := FreshDeleted(rows[..|rows| - 1], captured, firstRun, first);
      var d := rows[|rows| - 1];
      match IndexOf(captured, d.run)
      case None => before
      case Some(k) => before + [DeletedRow(first + |before|, firstRun + k, d.sourceId)]
  }

  function FreshBulk(rows: seq<BulkRow>, first: Id): seq<BulkRow> {
    seq(|rows|, k requires 0 <= k < |rows| => BulkRow(first + k, rows[k].payload))
  }

  function IdsOf<R>(rows: seq<R>, idOf: R -> Id): set<Id> {
    set k | 0 <= k < |rows| :: idOf(rows[k])
  }

  /** The rows whose id was not there before. */
  function NewRows<R>(rows: seq<R>, idOf: R -> Id, before: set<Id>): seq<R> {
    if rows == [] then []
    else NewRows(rows[..|rows| - 1], idOf, before) + (if idOf(rows[|rows| - 1]) in before then [] else [rows[|rows| - 1]])
  }

  function ConflictId(r: ConflictRow): Id { r.id }
  function DeletedId(r: DeletedRow): Id { r.id }
  function BulkId(r: BulkRow): Id { r.id }

  /** Ids that were in the audit tables before the run. */
  datatype Capture = Capture(conflicts: set<Id>, deleted: set<Id>, bulk: set<Id>)

  function CaptureOf(db: Db): Capture {
    Capture(IdsOf(db.conflicts, ConflictId), IdsOf(db.deleted, DeletedId), IdsOf(db.bulk, BulkId))
  }

  /** The tables of the start, then the audit rows again, under ids drawn from `next` on. */
  function PutBack(start: Db, next: Id, captured: seq<EtlRun>, conflicts: seq<ConflictRow>, deleted: seq<DeletedRow>, bulk: seq<BulkRow>): Db {
    var firstConflict := next + |captured|;
    var firstDeleted := firstConflict + |conflicts|;
    var readded := FreshDeleted(deleted, captured, next, firstDeleted);
    var firstBulk := firstDeleted + |readded|;
    Db(start.business, start.runs + FreshRuns(captured, next), start.conflicts + FreshConflicts(conflicts, firstConflict),
       start.deleted + readded, start.bulk + FreshBulk(bulk, firstBulk), firstBulk + |bulk|)
  }

  function Replayed(start: Db, flushed: Db, captured: seq<EtlRun>): Db {
    var pre := CaptureOf(start);
    PutBack(start, flushed.next, captured, NewRows(flushed.conflicts, ConflictId, pre.conflicts),
            NewRows(flushed.deleted, DeletedId, pre.deleted), NewRows(flushed.bulk, BulkId, pre.bulk))
  }

  /** Everything taken back; drawn ids stay drawn. */
  function RolledBack(start: Db, db: Db): Db {
    start.(next := db.next)
  }

  /** The run rows snapshot so far. */
  function Captured(start: Db, done: Db): seq<EtlRun> {
    if |start.runs| <= |done.runs| then done.runs[|start.runs|..] else []
  }

  /** A clean exit adds one bulk_imported row. */
  function Summed(db: Db, summary: nat): Db {
    db.(bulk := db.bulk + [BulkRow(db.next, summary)], next := db.next + 1)
  }

  /** The session when the loop over the tables is left: after the summary, or in the table that failed. */
  function Ended(done: Db, works: seq<Work>, n: nat, summary: nat): Db
    requires n <= |works|
  {
    if n < |works| then Worked(done, works[n]) else Summed(done, summary)
  }

  /** Whether the audit rows cannot be replayed: after a database error, and when the flush fails. */
  predicate AuditLost(works: seq<Work>, n: nat, flushFails: bool)
    requires n <= |works|
  {
    flushFails || (n < |works| && works[n].outcome.Aborts?)
  }

  /** flushFails: the flush that opens the replay raises. */
  function DryRunOf(start: Db, works: seq<Work>, summary: nat, flushFails: bool): Db {
    var n := Completed(works);
    var done := WorkedUpTo(start, works, n);
    var ended := Ended(done, works, n, summary);
    if AuditLost(works, n, flushFails) then RolledBack(start, ended) else Replayed(start, ended, Captured(start, done))
  }

  // ---------------------------------------------------------------- what a run should record

  function ContentOf(w: Work): RunContent {
    if w.outcome.Fine? then RunContent(w.table, w.counters, 0) else RunContent(w.table, 0, 1)
  }

  function Contents(rows: seq<ConflictRow>): (r: seq<Conflict>)
    ensures |r| == |rows| && forall k :: 0 <= k < |rows| ==> r[k] == rows[k].content
  {
    seq(|rows|, k requires 0 <= k < |rows| => rows[k].content)
  }

  predicate HasKey(cs: seq<Conflict>, key: Key) {
    exists k :: 0 <= k < |cs| && cs[k].key == key
  }

  /** The conflicts whose key is neither among the old ones nor earlier in the list. */
  function Unseen(old_: seq<Conflict>, cs: seq<Conflict>): seq<Conflict> {
    if cs == [] then []
    else
      var before := Unseen(old_, cs[..|cs| - 1]);
      if HasKey(old_, cs[|cs| - 1].key) || HasKey(before, cs[|cs| - 1].key) then before else before + [cs[|cs| - 1]]
  }

  function AllConflicts(works: seq<Work>, n: nat): seq<Conflict>
    requires n <= |works|
  {
    if n == 0 then [] else AllConflicts(works, n - 1) + works[n - 1].conflicts
  }

  datatype Sweep = Sweep(work: nat, sourceId: nat)

  function SweepOf(k: nat, deleted: seq<nat>): (r: seq<Sweep>)
    ensures |r| == |deleted|
  {
    seq(|deleted|, j requires 0 <= j < |deleted| => Sweep(k, deleted[j]))
  }

  function AllSweeps(works: seq<Work>, n: nat): (r: seq<Sweep>)
    requires n <= |works|
    ensures forall j :: 0 <= j < |r| ==> r[j].work < n
  {
    if n == 0 then [] else AllSweeps(works, n - 1) + SweepOf(n - 1, works[n - 1].deleted)
  }

  /** The deleted rows are those of these sweeps, each under the run row of its table. */
  predicate SweepsAre(rows: seq<DeletedRow>, runs: seq<EtlRun>, sweeps: seq<Sweep>) {
    && |rows| == |sweeps|
    && forall j :: 0 <= j < |rows| ==> sweeps[j].work < |runs| && rows[j].sourceId == sweeps[j].sourceId
                                       && rows[j].run == runs[sweeps[j].work].id
  }
}
