/** What each row of a forms import comes to, and what the rows together leave: read off the rows and the contacts
    imported before them, without running the loop. */
module FormsOutcome {
  import opened Options
  import opened FormsImport
  import opened FormsLaws

  /** The contact was imported by an earlier run, or by an earlier row of this one. */
  predicate ImportedBefore(db: Db, rows: seq<Row>, k: nat, id: string)
    requires k <= |rows|
  {
    id in db.imported || exists j :: 0 <= j < k && rows[j].Mappable? && rows[j].sourceId == id && rows[j].attempt.Imports?
  }

  datatype Fate = BadRow | OldRow | NewContact | BlockedRow | FailedRow

  function FateOf(db: Db, rows: seq<Row>, k: nat): Fate
    requires k < |rows|
  {
    if rows[k].Unmappable? then BadRow
    else if ImportedBefore(db, rows, k, rows[k].sourceId) then OldRow
    else match rows[k].attempt
      case Imports(_) => NewContact
      case Blocks(_) => BlockedRow
      case Fails(_, _) => FailedRow
  }

  /** One row on top of what those before it left: a new contact and a blocked one leave their writes, a new
      contact its source id, a bad or failed row its conflict, and an old one nothing. */
  function Adds(db: Db, rows: seq<Row>, k: nat, before: Db): Db
    requires k < |rows|
  {
    match FateOf(db, rows, k)
    case BadRow =>
      var known := rows[k].badId.Some? && rows[k].badId.value != "";
      before.(conflicts := before.conflicts + [Conflict(if known then rows[k].badId.value else "unknown", rows[k].reason)])
    case OldRow => before
    case NewContact => Db(before.data + rows[k].attempt.writes, before.imported + [rows[k].sourceId], before.conflicts)
    case BlockedRow => before.(data := before.data + rows[k].attempt.writes)
    case FailedRow => before.(conflicts := before.conflicts + [Conflict(rows[k].sourceId, rows[k].attempt.conflictType)])
  }

  function Expected(db: Db, rows: seq<Row>, n: nat): Db
    requires n <= |rows|
  {
    if n == 0 then db else Adds(db, rows, n - 1, Expected(db, rows, n - 1))
  }

  /** The rows of one fate among the first n. */
  function Having(db: Db, rows: seq<Row>, n: nat, fate: Fate): set<int>
    requires n <= |rows|
  {
    set k | 0 <= k < n && FateOf(db, rows, k) == fate
  }

  lemma {:induction false} SeenMeans(db: Db, rows: seq<Row>, n: nat)
    requires n <= |rows|
    ensures forall id :: id in SeenAfter(Started(db).seen, rows, n) <==> ImportedBefore(db, rows, n, id)
  {
    if n > 0 {
      SeenMeans(db, rows, n - 1);
    }
  }

  lemma {:induction false} RowAdds(db: Db, rows: seq<Row>, k: nat, before: Db)
    requires k < |rows|
    ensures DbAfter(before, rows[k], SeenAfter(Started(db).seen, rows, k)) == Adds(db, rows, k, before)
  {
    SeenMeans(db, rows, k);
  }

  /** What is reached after n rows is what they add up to. */
  lemma {:induction false} RowsAddUp(db: Db, rows: seq<Row>, n: nat)
    requires n <= |rows|
    ensures Reached(db, Started(db).seen, rows, n) == Expected(db, rows, n)
  {
    if n > 0 {
      RowsAddUp(db, rows, n - 1);
      RowAdds(db, rows, n - 1, Expected(db, rows, n - 1));
    }
  }

  /** A run that gets through commits exactly what its rows add up to, whatever the batches. */
  lemma {:induction false} RunCommitsTheSum(db: Db, rows: seq<Row>, commitEvery: Option<nat>)
    requires !Finished(db, rows, commitEvery).aborted
    ensures Finished(db, rows, commitEvery).committed == Expected(db, rows, |rows|)
  {
    FinishesIffNoConflictRepeats(db, rows, commitEvery);
    RowsAddUp(db, rows, |rows|);
  }

  ghost predicate CountersAre(c: Counts, db: Db, rows: seq<Row>, n: nat)
    requires n <= |rows|
  {
    && c.rowsIn == n
    && c.imported == |Having(db, rows, n, NewContact)| && c.blocked == |Having(db, rows, n, BlockedRow)|
    && c.mappingFailed == |Having(db, rows, n, BadRow)| && c.skippedConflict == |Having(db, rows, n, FailedRow)|
    && c.skippedAlreadyImported == |Having(db, rows, n, OldRow)|
  }

  lemma {:induction false} OneMoreHaving(db: Db, rows: seq<Row>, n: nat, fate: Fate)
    requires n < |rows|
    ensures |Having(db, rows, n + 1, fate)| == |Having(db, rows, n, fate)| + if FateOf(db, rows, n) == fate then 1 else 0
  {
    var more: set<int> := if FateOf(db, rows, n) == fate then {n} else {};
    assert Having(db, rows, n + 1, fate) == Having(db, rows, n, fate) + more;
  }

  lemma {:induction false} OneMoreCounted(c: Counts, db: Db, rows: seq<Row>, n: nat)
    requires n < |rows| && CountersAre(c, db, rows, n)
    ensures CountersAre(CountsAfter(c, rows[n], SeenAfter(Started(db).seen, rows, n)), db, rows, n + 1)
  {
    SeenMeans(db, rows, n);
    OneMoreHaving(db, rows, n, BadRow);
    OneMoreHaving(db, rows, n, OldRow);
    OneMoreHaving(db, rows, n, NewContact);
    OneMoreHaving(db, rows, n, BlockedRow);
    OneMoreHaving(db, rows, n, FailedRow);
  }

  /** Each counter is the number of rows of its fate. */
  lemma {:induction false} CountersTell(db: Db, rows: seq<Row>, commitEvery: Option<nat>, n: nat)
    requires n <= |rows| && !Processed(Started(db), rows, commitEvery, n).aborted
    ensures CountersAre(Processed(Started(db), rows, commitEvery, n).counts, db, rows, n)
  {
    if n == 0 {
      assert forall fate :: Having(db, rows, 0, fate) == {};
    } else {
      CountersTell(db, rows, commitEvery, n - 1);
      RunFollowsTheRows(db, rows, commitEvery, n - 1);
      OneMoreCounted(Processed(Started(db), rows, commitEvery, n - 1).counts, db, rows, n - 1);
    }
  }
}
