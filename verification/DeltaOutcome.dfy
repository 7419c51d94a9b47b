/** What a run writes into etl_runs, and which of those rows the next watermark looks at. */
module DeltaOutcome {
  import opened Options
  import opened DeltaSync

  /** A production run row without errors that has a mark. */
  predicate Good(r: EtlRun) {
    r.production && r.errors == 0 && r.mark.Some?
  }

  /** The watermark is the mark of a good row, and no table with a good row has all its marks below it. */
  lemma {:induction false} WatermarkTells(log: seq<EtlRun>, k: nat)
    requires k < |log| && Good(log[k])
    ensures AutoWatermark(log).Some?
    ensures exists j :: 0 <= j < |log| && Good(log[j]) && log[j].mark == AutoWatermark(log)
    ensures exists j :: 0 <= j < |log| && Good(log[j]) && log[j].table == log[k].table && log[j].mark.value >= AutoWatermark(log).value
  {
    assert Counts(log[k], log[k].table);
    WatermarkIsLeastOfLatest(log, log[k].table);
    var t :| LatestFor(log, t) == AutoWatermark(log);
    var i :| 0 <= i < |log| && Counts(log[i], t) && log[i].mark == LatestFor(log, t);
    var j :| 0 <= j < |log| && Counts(log[j], log[k].table) && log[j].mark == LatestFor(log, log[k].table);
    assert Good(log[i]) && Good(log[j]);
  }

  lemma {:induction false} LatestForSkips(log: seq<EtlRun>, row: EtlRun, table: TableName)
    requires !Good(row)
    ensures LatestFor(log + [row], table) == LatestFor(log, table)
  {
    assert (log + [row])[..|log|] == log;
  }

  /** A dry run, a run with errors and a run without a mark never move the watermark. */
  lemma {:induction false} OnlyGoodRowsMoveIt(log: seq<EtlRun>, row: EtlRun)
    requires !Good(row)
    ensures AutoWatermark(log + [row]) == AutoWatermark(log)
  {
    forall table {
      LatestForSkips(log, row, table);
    }
  }

  /** The run row of one table that was gone through. */
  predicate RowOf(r: EtlRun, table: TableName, postsMax: Option<nat>) {
    && r.table == table && r.production && r.errors == 0
    && (table.Contacts? ==> r.mark == postsMax)
    && (!table.Contacts? && !table.ActivityLog? ==> r.mark == None)
  }

  lemma {:induction false} OneRow(w: World, table: TableName, wm: Option<nat>, postsMax: Option<nat>) returns (row: EtlRun)
    ensures var w' := TableDone(w, table, wm, postsMax); w'.log == w.log + [row] && SameSource(w, w')
    ensures RowOf(row, table, postsMax)
  {
    row := TableDone(w, table, wm, postsMax).log[|w.log|];
  }

  /** After n tables there is one more row for each, in order; the source is as it was. */
  lemma {:induction false} OneRowPerTable(w: World, tables: seq<TableName>, n: nat, wm: Option<nat>, postsMax: Option<nat>)
    returns (rows: seq<EtlRun>)
    requires n <= |tables|
    ensures var w' := TablesDone(w, tables, n, wm, postsMax); w'.log == w.log + rows && SameSource(w, w')
    ensures |rows| == n && forall k :: 0 <= k < n ==> RowOf(rows[k], tables[k], postsMax)
  {
    if n == 0 {
      rows := [];
    } else {
      var earlier := OneRowPerTable(w, tables, n - 1, wm, postsMax);
      var row := OneRow(TablesDone(w, tables, n - 1, wm, postsMax), tables[n - 1], wm, postsMax);
      rows := earlier + [row];
      assert w.log + earlier + [row] == w.log + rows;
    }
  }

  /** The mark of activity_log, per stream that has rows, is at most its newest one, and is the newest of one. */
  lemma {:induction false} ActivityRowTells(w: World, wm: Option<nat>, postsMax: Option<nat>)
    ensures var mark := TableDone(w, ActivityLog, wm, postsMax).log[|w.log|].mark;
      && (mark.None? <==> w.comments == [] && w.history == [])
      && (mark.Some? ==>
            && (w.comments != [] ==> exists k :: 0 <= k < |w.comments| && w.comments[k].at * 1_000_000 >= mark.value)
            && (w.history != [] ==> exists k :: 0 <= k < |w.history| && w.history[k].at * 1_000_000 >= mark.value)
            && ((exists k :: 0 <= k < |w.comments| && w.comments[k].at * 1_000_000 == mark.value)
                || (exists k :: 0 <= k < |w.history| && w.history[k].at * 1_000_000 == mark.value)))
  {
  }

  lemma {:induction false} LeftBehindTells(w: World, table: TableName, wm: Option<nat>, kept: set<SourceId>, mark: Option<nat>)
    ensures var w' := LeftBehind(w, table, wm, kept, mark);
      && w'.log == w.log + [EtlRun(table, true, 1, mark)] && SameSource(w, w')
      && (!table.ActivityLog? ==> w'.activity == w.activity)
      && (table.ActivityLog? ==> forall id :: id in w'.activity <==> id in w.activity || (id in kept && id in Readable(w, wm)))
  {
  }

  /** A run that a database error or a dead process breaks off leaves what the tables before left. One that any
      other exception breaks off also leaves a part of what the table read, and a run row that counts an error. */
  lemma {:induction false} BrokenRunLeaves(w: World, tables: seq<TableName>, full: bool, postsMax: Option<nat>, ending: Ending)
    requires !ending.Finished? && ending.at < |tables|
    ensures var wm := if full then None else AutoWatermark(w.log);
      var before, after := TablesDone(w, tables, ending.at, wm, postsMax), RunDone(w, tables, full, postsMax, ending);
      && (ending.RolledBack? ==> after == before)
      && (ending.HalfDone? ==>
            && after.log == before.log + [EtlRun(tables[ending.at], true, 1, ending.mark)] && SameSource(before, after)
            && (!tables[ending.at].ActivityLog? ==> after.activity == before.activity)
            && (tables[ending.at].ActivityLog? ==>
                  forall id :: id in after.activity <==> id in before.activity || (id in ending.kept && id in Readable(before, wm))))
  {
    if ending.HalfDone? {
      var wm := if full then None else AutoWatermark(w.log);
      LeftBehindTells(TablesDone(w, tables, ending.at, wm, postsMax), tables[ending.at], wm, ending.kept, ending.mark);
    }
  }

  /** So the table at which a run breaks off moves no watermark. */
  lemma {:induction false} BrokenTableMovesNothing(w: World, tables: seq<TableName>, full: bool, postsMax: Option<nat>, ending: Ending)
    requires !ending.Finished? && ending.at < |tables|
    ensures var wm := if full then None else AutoWatermark(w.log);
      AutoWatermark(RunDone(w, tables, full, postsMax, ending).log) == AutoWatermark(TablesDone(w, tables, ending.at, wm, postsMax).log)
  {
    var wm := if full then None else AutoWatermark(w.log);
    var before, after := TablesDone(w, tables, ending.at, wm, postsMax), RunDone(w, tables, full, postsMax, ending);
    BrokenRunLeaves(w, tables, full, postsMax, ending);
    if ending.HalfDone? {
      OnlyGoodRowsMoveIt(before.log, EtlRun(tables[ending.at], true, 1, ending.mark));
      assert after.log == before.log + [EtlRun(tables[ending.at], true, 1, ending.mark)];
    }
  }
}
