/** The forms importer: one savepoint per row, a commit every so many finished writes. */
module FormsImport {
  import opened Options

  type Write = nat

  /** What mapping and importing one row comes to. A failure rolls its savepoint back; whatever the row had
      written by then is in `partial`. */
  datatype Attempt = Imports(writes: seq<Write>) | Blocks(writes: seq<Write>) | Fails(partial: seq<Write>, conflictType: string)

  datatype Row =
    | Unmappable(createdAt: Option<int>, badId: Option<string>, reason: string)
    | Mappable(createdAt: Option<int>, sourceId: string, attempt: Attempt)

  /** The columns of the natural key that differ between rows of this importer. */
  datatype Conflict = Conflict(sourceId: string, conflictType: string)

  /** imported lists the source ids of imported contacts. */
  datatype Db = Db(data: seq<Write>, imported: seq<string>, conflicts: seq<Conflict>)

  datatype Counts = Counts(
    rowsIn: nat, imported: nat, blocked: nat, mappingFailed: nat, skippedConflict: nat, skippedAlreadyImported: nat,
    maxCreatedAt: Option<int>)

  /** The open transaction, the part of it that is committed, and the loop's own variables. A commit that
      the natural key refuses raises and ends the run. */
  datatype Run = Run(committed: Db, working: Db, seen: set<string>, sinceCommit: nat, counts: Counts, aborted: bool)

  // ---------------------------------------------------------------- one row

  function Later(a: Option<int>, b: Option<int>): Option<int> {
    if b.None? then a else if a.None? || b.value > a.value then b else a
  }

  /** What the row records as a conflict, if anything. */
  function ConflictOf(row: Row, seen: set<string>): Option<Conflict> {
    match row
    case Unmappable(_, badId, reason) =>
      Some(Conflict(if badId.None? || badId.value == "" then "unknown" else badId.value, reason))
    case Mappable(_, sourceId, attempt) =>
      if sourceId !in seen && attempt.Fails? then Some(Conflict(sourceId, attempt.conflictType)) else None
  }

  function NowSeen(row: Row, seen: set<string>): set<string> {
    if row.Mappable? && row.sourceId !in seen && row.attempt.Imports? then seen + {row.sourceId} else seen
  }

  /** Every row that is not skipped as already imported counts as a finished write. */
  predicate Finishes(row: Row, seen: set<string>) {
    row.Unmappable? || row.sourceId !in seen
  }

  function DbAfter(db: Db, row: Row, seen: set<string>): Db {
    var conflict := ConflictOf(row, seen);
    if conflict.Some? then db.(conflicts := db.conflicts + [conflict.value])
    else if row.sourceId in seen then db
    else match row.attempt
      case Imports(writes) => db.(data := db.data + writes, imported := db.imported + [row.sourceId])
      case Blocks(writes) => db.(data := db.data + writes)
      case Fails(_, _) => db
  }

  function CountsAfter(c: Counts, row: Row, seen: set<string>): Counts {
    var c' := c.(rowsIn := c.rowsIn + 1, maxCreatedAt := Later(c.maxCreatedAt, row.createdAt));
    match row
    case Unmappable(_, _, _) => c'.(mappingFailed := c.mappingFailed + 1)
    case Mappable(_, sourceId, attempt) =>
      if sourceId in seen then c'.(skippedAlreadyImported := c.skippedAlreadyImported + 1)
      else match attempt
        case Imports(_) => c'.(imported := c.imported + 1)
        case Blocks(_) => c'.(blocked := c.blocked + 1)
        case Fails(_, _) => c'.(skippedConflict := c.skippedConflict + 1)
  }

  function Handled(r: Run, row: Row): Run {
    r.(working := DbAfter(r.working, row, r.seen), seen := NowSeen(row, r.seen),
       sinceCommit := r.sinceCommit + (if Finishes(row, r.seen) then 1 else 0), counts := CountsAfter(r.counts, row, r.seen))
  }

  // ---------------------------------------------------------------- committing

  predicate Distinct<T(==)>(s: seq<T>) {
    forall i, j :: 0 <= i < j < |s| ==> s[i] != s[j]
  }

  function Committed(r: Run): Run {
    if Distinct(r.working.conflicts) then r.(committed := r.working, sinceCommit := 0)
    else r.(aborted := true, working := r.committed)
  }

  function Step(r: Run, row: Row, commitEvery: Option<nat>): Run {
    if r.aborted then r
    else
      var handled := Handled(r, row);
      if commitEvery.Some? && handled.sinceCommit >= commitEvery.value then Committed(handled) else handled
  }

  /** The first n rows. */
  function Processed(r: Run, rows: seq<Row>, commitEvery: Option<nat>, n: nat): Run
    requires n <= |rows|
  {
    if n == 0 then r else Step(Processed(r, rows, commitEvery, n - 1), rows[n - 1], commitEvery)
  }

  function Started(db: Db): Run {
    Run(db, db, set id | id in db.imported, 0, Counts(0, 0, 0, 0, 0, 0, None), false)
  }

  /** The whole run with its final commit. */
  function Finished(db: Db, rows: seq<Row>, commitEvery: Option<nat>): Run {
    var r := Processed(Started(db), rows, commitEvery, |rows|);
    if r.aborted then r else Committed(r)
  }

  // ---------------------------------------------------------------- the same rows without commits

  function SeenAfter(seen: set<string>, rows: seq<Row>, n: nat): set<string>
    requires n <= |rows|
  {
    if n == 0 then seen else NowSeen(rows[n - 1], SeenAfter(seen, rows, n - 1))
  }

  /** The database when the first n rows have been handled, committed or not. */
  function Reached(db: Db, seen: set<string>, rows: seq<Row>, n: nat): Db
    requires n <= |rows|
  {
    if n == 0 then db else DbAfter(Reached(db, seen, rows, n - 1), rows[n - 1], SeenAfter(seen, rows, n - 1))
  }

  function FinishedWrites(seen: set<string>, rows: seq<Row>, n: nat): nat
    requires n <= |rows|
  {
    if n == 0 then 0
    else FinishedWrites(seen, rows, n - 1) + (if Finishes(rows[n - 1], SeenAfter(seen, rows, n - 1)) then 1 else 0)
  }

  function ConflictsMet(seen: set<string>, rows: seq<Row>, n: nat): seq<Conflict>
    requires n <= |rows|
  {
    if n == 0 then []
    else
      var c := ConflictOf(rows[n - 1], SeenAfter(seen, rows, n - 1));
      ConflictsMet(seen, rows, n - 1) + (if c.Some? then [c.value] else [])
  }
}
