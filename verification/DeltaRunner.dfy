/** The table loop of an import run and its two activity_log importers, proved against DeltaSync. */
module DeltaRunner {
  import opened Options
  import opened DeltaSync

  datatype Counters = Counters(rowsIn: nat, inserted: nat, skipped: nat)

  /** The rows that a run with this watermark reads. */
  function CommentsAbove(comments: Stream, wm: Option<nat>): set<nat> {
    set k | 0 <= k < |comments| && CommentRead(comments[k], wm)
  }

  function HistoryAbove(history: Stream, wm: Option<nat>): set<nat> {
    set k | 0 <= k < |history| && HistoryRead(history[k], wm)
  }

  lemma {:induction false} OneMoreCommentAbove(comments: Stream, wm: Option<nat>, k: nat)
    requires k < |comments|
    ensures |CommentsAbove(comments[..k + 1], wm)| == |CommentsAbove(comments[..k], wm)| + (if CommentRead(comments[k], wm) then 1 else 0)
  {
    var before, after := CommentsAbove(comments[..k], wm), CommentsAbove(comments[..k + 1], wm);
    assert forall j :: 0 <= j < k ==> comments[..k + 1][j] == comments[..k][j];
    assert after == if CommentRead(comments[k], wm) then before + {k} else before;
  }

  lemma {:induction false} OneMoreComment(comments: Stream, imported: set<PostId>, wm: Option<nat>, k: nat)
    requires k < |comments|
    ensures ReadComments(comments[..k + 1], imported, wm) == ReadComments(comments[..k], imported, wm)
              + (if CommentRead(comments[k], wm) && comments[k].post in imported then {CommentId(k)} else {})
    ensures |CommentsAbove(comments[..k + 1], wm)| == |CommentsAbove(comments[..k], wm)| + (if CommentRead(comments[k], wm) then 1 else 0)
  {
    OneMoreCommentAbove(comments, wm, k);
    assert forall j :: 0 <= j < k ==> comments[..k + 1][j] == comments[..k][j];
  }

  lemma {:induction false} OneMoreHistoryRowAbove(history: Stream, wm: Option<nat>, k: nat)
    requires k < |history|
    ensures |HistoryAbove(history[..k + 1], wm)| == |HistoryAbove(history[..k], wm)| + (if HistoryRead(history[k], wm) then 1 else 0)
  {
    var before, after := HistoryAbove(history[..k], wm), HistoryAbove(history[..k + 1], wm);
    assert forall j :: 0 <= j < k ==> history[..k + 1][j] == history[..k][j];
    assert after == if HistoryRead(history[k], wm) then before + {k} else before;
  }

  lemma {:induction false} OneMoreHistoryRow(history: Stream, imported: set<PostId>, wm: Option<nat>, k: nat)
    requires k < |history|
    ensures ReadHistory(history[..k + 1], imported, wm) == ReadHistory(history[..k], imported, wm)
              + (if HistoryRead(history[k], wm) && history[k].post in imported then {HistlogId(k)} else {})
    ensures |HistoryAbove(history[..k + 1], wm)| == |HistoryAbove(history[..k], wm)| + (if HistoryRead(history[k], wm) then 1 else 0)
  {
    OneMoreHistoryRowAbove(history, wm, k);
    assert forall j :: 0 <= j < k ==> history[..k + 1][j] == history[..k][j];
  }

  lemma {:induction false} SameSourceSameRead(w: World, w': World, wm: Option<nat>)
    requires SameSource(w, w')
    ensures Readable(w', wm) == Readable(w, wm)
  {
  }

  class Database {
    var imported: set<PostId>
    var activity: set<SourceId>
    var log: seq<EtlRun>

    constructor (imported: set<PostId>, activity: set<SourceId>, log: seq<EtlRun>)
      ensures this.imported == imported && this.activity == activity && this.log == log
    {
      this.imported, this.activity, this.log := imported, activity, log;
    }

    ghost function With(comments: Stream, history: Stream): World
      reads this
    {
      World(comments, history, imported, activity, log)
    }

    /** Insert one row unless it is there or its contact is not. */
    method InsertRow(id: SourceId, post: PostId, counts: Counters) returns (counts': Counters)
      requires counts.rowsIn == counts.inserted + counts.skipped
      modifies this`activity
      ensures activity == old(activity) + if post in imported then {id} else {}
      ensures counts'.rowsIn == counts'.inserted + counts'.skipped == counts.rowsIn + 1
      ensures counts'.inserted - counts.inserted == |activity| - |old(activity)|
    {
      if post !in imported || id in activity {
        return Counters(counts.rowsIn + 1, counts.inserted, counts.skipped + 1);
      }
      activity := activity + {id};
      return Counters(counts.rowsIn + 1, counts.inserted + 1, counts.skipped);
    }

    /** An import that found `before` has read `rows` rows and brought in the ids of `read`. */
    ghost predicate Counting(before: set<SourceId>, read: set<SourceId>, rows: nat, counts: Counters)
      reads this
    {
      && activity == before + read
      && counts.rowsIn == rows == counts.inserted + counts.skipped
      && counts.inserted == |activity| - |before|
    }

    method ImportComment(ghost before: set<SourceId>, comments: Stream, k: nat, wm: Option<nat>, counts: Counters) returns (counts': Counters)
      requires k < |comments| && Counting(before, ReadComments(comments[..k], imported, wm), |CommentsAbove(comments[..k], wm)|, counts)
      modifies this`activity
      ensures Counting(before, ReadComments(comments[..k + 1], imported, wm), |CommentsAbove(comments[..k + 1], wm)|, counts')
    {
      OneMoreComment(comments, imported, wm, k);
      if !CommentRead(comments[k], wm) {
        return counts;
      }
      counts' := InsertRow(CommentId(k), comments[k].post, counts);
    }

    method ImportComments(comments: Stream, wm: Option<nat>) returns (counts: Counters)
      modifies this`activity
      ensures activity == old(activity) + ReadComments(comments, imported, wm)
      ensures counts.rowsIn == |CommentsAbove(comments, wm)| == counts.inserted + counts.skipped
      ensures counts.inserted == |activity| - |old(activity)|
    {
      counts := Counters(0, 0, 0);
      for k := 0 to |comments|
        invariant Counting(old(activity), ReadComments(comments[..k], imported, wm), |CommentsAbove(comments[..k], wm)|, counts)
      {
        counts := ImportComment(old(activity), comments, k, wm, counts);
      }
      assert comments[..|comments|] == comments;
    }

    method ImportHistoryRow(ghost before: set<SourceId>, history: Stream, k: nat, wm: Option<nat>, counts: Counters) returns (counts': Counters)
      requires k < |history| && Counting(before, ReadHistory(history[..k], imported, wm), |HistoryAbove(history[..k], wm)|, counts)
      modifies this`activity
      ensures Counting(before, ReadHistory(history[..k + 1], imported, wm), |HistoryAbove(history[..k + 1], wm)|, counts')
    {
      OneMoreHistoryRow(history, imported, wm, k);
      if !HistoryRead(history[k], wm) {
        return counts;
      }
      counts' := InsertRow(HistlogId(k), history[k].post, counts);
    }

    method ImportActivityHistory(history: Stream, wm: Option<nat>) returns (counts: Counters)
      modifies this`activity
      ensures activity == old(activity) + ReadHistory(history, imported, wm)
      ensures counts.rowsIn == |HistoryAbove(history, wm)| == counts.inserted + counts.skipped
      ensures counts.inserted == |activity| - |old(activity)|
    {
      counts := Counters(0, 0, 0);
      for k := 0 to |history|
        invariant Counting(old(activity), ReadHistory(history[..k], imported, wm), |HistoryAbove(history[..k], wm)|, counts)
      {
        counts := ImportHistoryRow(old(activity), history, k, wm, counts);
      }
      assert history[..|history|] == history;
    }

    method ImportActivity(comments: Stream, history: Stream, wm: Option<nat>) returns (counts: Counters)
      modifies this`activity
      ensures activity == old(activity) + Readable(With(comments, history), wm)
      ensures counts.rowsIn == |CommentsAbove(comments, wm)| + |HistoryAbove(history, wm)| == counts.inserted + counts.skipped
      ensures counts.inserted == |activity| - |old(activity)|
    {
      counts := ImportComments(comments, wm);
      var more := ImportActivityHistory(history, wm);
      counts := Counters(counts.rowsIn + more.rowsIn, counts.inserted + more.inserted, counts.skipped + more.skipped);
    }

    /** counts is what the run row of activity_log gets to say; the other tables count elsewhere. */
    method ImportTable(comments: Stream, history: Stream, table: TableName, wm: Option<nat>, postsMax: Option<nat>)
      returns (counts: Option<Counters>)
      modifies this`activity, this`log
      ensures With(comments, history) == TableDone(old(With(comments, history)), table, wm, postsMax)
      ensures counts.Some? <==> table.ActivityLog?
      ensures counts.Some? ==>
                && counts.value.rowsIn == |CommentsAbove(comments, wm)| + |HistoryAbove(history, wm)|
                && counts.value.inserted == |activity| - |old(activity)|
                && counts.value.rowsIn == counts.value.inserted + counts.value.skipped
    {
      var mark := None;
      counts := None;
      if table.Contacts? {
        mark := postsMax;
      } else if table.ActivityLog? {
        ghost var before := With(comments, history);
        var imports := ImportActivity(comments, history, wm);
        counts := Some(imports);
        SameSourceSameRead(before, With(comments, history), wm);
        mark := MinOf(Latest(comments), Latest(history));
      }
      log := log + [EtlRun(table, true, 0, mark)];
    }

    /** One production run. The ending says at which table it breaks off, and how. */
    method RunEtl(comments: Stream, history: Stream, tables: seq<TableName>, full: bool, postsMax: Option<nat>, ending: Ending)
      modifies this`activity, this`log
      ensures With(comments, history) == RunDone(old(With(comments, history)), tables, full, postsMax, ending)
    {
      var wm := if full then None else AutoWatermark(log);
      var n := Completed(tables, ending);
      for k := 0 to n
        invariant With(comments, history) == TablesDone(old(With(comments, history)), tables, k, wm, postsMax)
      {
        var counts := ImportTable(comments, history, tables[k], wm, postsMax);
      }
      if ending.HalfDone? && n < |tables| {
        if tables[n].ActivityLog? {
          activity := activity + ending.kept * Readable(World(comments, history, imported, activity, log), wm);
        }
        log := log + [EtlRun(tables[n], true, 1, ending.mark)];
      }
    }
  }
}
