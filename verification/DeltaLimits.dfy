/** When delta runs of the activity_log import stop being exact. */
module DeltaLimits {
  import opened Options
  import opened DeltaSync

  /** The run `last`, after that history, leaves what one full scan would. */
  ghost predicate Exact(w: World, postsMax: Option<nat>, events: seq<Event>, last: Event) {
    var w' := History(FirstFullRun(w, postsMax), events + [last]);
    w'.activity == w.activity + Full(w')
  }

  predicate Late(log: seq<EtlRun>) {
    forall k :: 0 <= k < |log| && log[k].mark.Some? ==> log[k].mark.value >= SECOND
  }

  predicate LateMark(mark: Option<nat>) {
    mark.Some? ==> mark.value >= SECOND
  }

  /** No other importer left a mark within the first second of the epoch. */
  predicate AfterEpoch(w: World, postsMax: Option<nat>) {
    Late(w.log) && LateMark(postsMax)
  }

  const DELTA := Run([ActivityLog], false, None, Finished)
  const RESCAN := Run([ActivityLog], true, None, Finished)

  /** A run of some other importer at the earliest instant there is. */
  const EARLIEST := EtlRun(Submissions, true, 0, Some(SECOND))

  lemma {:induction false} ActivityLogStaysLate(w: World)
    requires Late(w.log) && LateMark(ActivityMark(w))
    ensures var w' := TableDone(w, ActivityLog, None, None);
            Late(w'.log) && SameSource(w, w') && w'.activity == w.activity + Full(w)
  {
  }

  lemma {:induction false} OtherTableStaysLate(w: World, table: TableName, postsMax: Option<nat>)
    requires Late(w.log) && LateMark(postsMax) && !table.ActivityLog?
    ensures var w' := TableDone(w, table, None, postsMax);
            Late(w'.log) && SameSource(w, w') && w'.activity == w.activity
  {
  }

  lemma {:induction false} TablesStayLate(w: World, n: nat, postsMax: Option<nat>)
    requires n <= |ALL_TABLES| && Late(w.log) && LateMark(postsMax) && LateMark(ActivityMark(w))
    ensures var w' := TablesDone(w, ALL_TABLES, n, None, postsMax);
            Late(w'.log) && SameSource(w, w') && w'.activity <= w.activity + Full(w)
  {
    if n > 0 {
      var before := TablesDone(w, ALL_TABLES, n - 1, None, postsMax);
      TablesStayLate(w, n - 1, postsMax);
      SameSourceSameFull(w, before);
      if ALL_TABLES[n - 1].ActivityLog? {
        ActivityLogStaysLate(before);
      } else {
        OtherTableStaysLate(before, ALL_TABLES[n - 1], postsMax);
      }
    }
  }

  lemma {:induction false} LateWatermark(log: seq<EtlRun>, k: nat)
    requires Late(log) && k < |log| && Counts(log[k], Submissions)
    ensures AutoWatermark(log).Some? && AutoWatermark(log).value >= SECOND
  {
  }

  lemma {:induction false} AnotherImporterRan(w: World)
    requires Late(w.log)
    ensures var w' := Step(w, OtherRun(EARLIEST));
            && w' == w.(log := w.log + [EARLIEST])
            && AutoWatermark(w'.log).Some? && AutoWatermark(w'.log).value >= SECOND
  {
    var log := w.log + [EARLIEST];
    assert log[|w.log|] == EARLIEST;
    LateWatermark(log, |w.log|);
  }

  /** DELTA and RESCAN, with the loop over tables unfolded. */
  function DeltaRun(w: World): World {
    TableDone(w, ActivityLog, AutoWatermark(w.log), None)
  }

  function Rescan(w: World): World {
    TableDone(w, ActivityLog, None, None)
  }

  lemma {:induction false} OneTable(w: World, wm: Option<nat>)
    ensures TablesDone(w, [ActivityLog], 1, wm, None) == TableDone(w, ActivityLog, wm, None)
  {
  }

  lemma {:induction false} OneTableRuns(w: World)
    ensures Step(w, DELTA) == DeltaRun(w) && Step(w, RESCAN) == Rescan(w)
  {
    OneTable(w, AutoWatermark(w.log));
    OneTable(w, None);
  }

  /** A row at or below the watermark that is not there yet stays out; a full scan takes it. */
  lemma {:induction false} BelowTheWatermarkIsMissed(w: World, k: nat)
    requires k < |w.comments| && w.comments[k].post in w.imported && CommentId(k) !in w.activity
    requires AutoWatermark(w.log).Some? && w.comments[k].at * SECOND <= AutoWatermark(w.log).value
    ensures CommentId(k) !in DeltaRun(w).activity && CommentId(k) in Full(DeltaRun(w))
    ensures CommentId(k) in Rescan(w).activity
  {
  }

  lemma {:induction false} BelowTheWatermarkIsMissedInHistory(w: World, k: nat)
    requires k < |w.history| && w.history[k].post in w.imported && HistlogId(k) !in w.activity
    requires AutoWatermark(w.log).Some? && w.history[k].at * SECOND <= AutoWatermark(w.log).value
    ensures HistlogId(k) !in DeltaRun(w).activity && HistlogId(k) in Full(DeltaRun(w))
  {
  }

  lemma {:induction false} HistoryOfTwoAndALast(w: World, a: Event, b: Event, c: Event)
    ensures History(w, [a, b] + [c]) == Step(Step(Step(w, a), b), c)
  {
    assert [a][..0] == [] && [a, b][..1] == [a] && ([a, b] + [c])[..2] == [a, b];
    assert History(w, [a]) == Step(History(w, []), a);
    assert History(w, [a, b]) == Step(History(w, [a]), b);
  }

  lemma {:induction false} NotExact(w: World, postsMax: Option<nat>, events: seq<Event>, w': World, id: SourceId)
    requires w' == History(FirstFullRun(w, postsMax), events + [DELTA])
    requires id in Full(w') && id !in w'.activity
    ensures !Exact(w, postsMax, events, DELTA)
  {
  }

  /** What the history below leads to. */
  lemma {:induction false} ThreeMoreSteps(w: World, add: Event, added: World)
    requires Allowed(w, add) && Happen(w, add) == added && added.log == w.log && added.activity == w.activity && Late(w.log)
    requires !add.Run? && !add.OtherRun?
    ensures var seen := added.(log := w.log + [EARLIEST]);
            && History(w, [OtherRun(EARLIEST), add] + [DELTA]) == DeltaRun(seen)
            && AutoWatermark(seen.log).Some? && AutoWatermark(seen.log).value >= SECOND
  {
    HistoryOfTwoAndALast(w, OtherRun(EARLIEST), add, DELTA);
    AnotherImporterRan(w);
    OneTableRuns(added.(log := w.log + [EARLIEST]));
  }

  lemma {:induction false} FirstRowIsHidden(first: World, post: PostId) returns (events: seq<Event>, id: SourceId)
    requires Late(first.log) && post in first.imported
    requires (first.comments == [] && CommentId(0) !in first.activity) || (first.history == [] && HistlogId(0) !in first.activity)
    ensures var w' := History(first, events + [DELTA]); id in Full(w') && id !in w'.activity
  {
    if first.comments == [] && CommentId(0) !in first.activity {
      var added := first.(comments := [Row(1, post)]);
      events, id := [OtherRun(EARLIEST), AddComment(Row(1, post))], CommentId(0);
      ThreeMoreSteps(first, AddComment(Row(1, post)), added);
      BelowTheWatermarkIsMissed(added.(log := first.log + [EARLIEST]), 0);
    } else {
      var added := first.(history := [Row(1, post)]);
      events, id := [OtherRun(EARLIEST), AddHistory(Row(1, post))], HistlogId(0);
      ThreeMoreSteps(first, AddHistory(Row(1, post)), added);
      BelowTheWatermarkIsMissedInHistory(added.(log := first.log + [EARLIEST]), 0);
    }
  }

  /** With one stream empty at the full run, its first row can be dated before the watermark the other
      stream or another importer left, and no delta run reads it. */
  lemma {:induction false} EmptyStreamLosesItsFirstRow(w: World, postsMax: Option<nat>, post: PostId) returns (events: seq<Event>)
    requires AfterEpoch(w, postsMax) && post in w.imported && (w.comments == [] || w.history == [])
    requires CommentId(0) !in w.activity && HistlogId(0) !in w.activity
    ensures !Exact(w, postsMax, events, DELTA)
  {
    TablesStayLate(w, |ALL_TABLES|, postsMax);
    var id;
    events, id := FirstRowIsHidden(FirstFullRun(w, postsMax), post);
    NotExact(w, postsMax, events, History(FirstFullRun(w, postsMax), events + [DELTA]), id);
  }

  /** Delta runs are exact in every history if and only if both streams had rows at the full run. */
  lemma {:induction false} DeltaIsExactIff(w: World, postsMax: Option<nat>, post: PostId)
    requires Unmarked(w) && AfterEpoch(w, postsMax) && post in w.imported
    requires CommentId(0) !in w.activity && HistlogId(0) !in w.activity
    ensures (w.comments != [] && w.history != [])
        <==> (forall events: seq<Event>, last: Event :: ImportsActivity(last) ==> Exact(w, postsMax, events, last))
  {
    if w.comments != [] && w.history != [] {
      forall events: seq<Event>, last: Event | ImportsActivity(last) ensures Exact(w, postsMax, events, last) {
        DeltaEqualsFull(w, postsMax, events, last);
      }
    } else {
      var events := EmptyStreamLosesItsFirstRow(w, postsMax, post);
      assert [ActivityLog][0].ActivityLog?;
      assert ImportsActivity(DELTA);
    }
  }

  // ---------------------------------------------------------------- a contact that lands late

  predicate Above(row: Row, wm: Option<nat>) {
    wm.None? || row.at * SECOND > wm.value
  }

  /** Cutting the watermark down to whole seconds makes no difference to rows dated in whole seconds. */
  lemma {:induction false} AboveInWholeSeconds(row: Row, wm: Option<nat>)
    ensures HistoryRead(row, wm) == Above(row, wm)
  {
  }

  lemma {:induction false} CommentRowRead(w: World, k: nat, wm: Option<nat>)
    requires k < |w.comments| && w.comments[k].post in w.imported
    ensures CommentId(k) in Readable(w, wm) <==> CommentRead(w.comments[k], wm)
  {
  }

  lemma {:induction false} HistoryRowRead(w: World, k: nat, wm: Option<nat>)
    requires k < |w.history| && w.history[k].post in w.imported
    ensures HistlogId(k) in Readable(w, wm) <==> HistoryRead(w.history[k], wm)
  {
  }

  /** A comment read before its contact was imported is passed over. Once the contact lands, the next delta
      run picks it up if and only if it is newer than the watermark; a full run always does. */
  lemma {:induction false} LateContactIff(w: World, k: nat)
    requires k < |w.comments| && CommentId(k) !in w.activity
    ensures var landed := Happen(w, ContactLands(w.comments[k].post));
            && (CommentId(k) in Step(landed, DELTA).activity <==> Above(w.comments[k], AutoWatermark(w.log)))
            && CommentId(k) in Step(landed, RESCAN).activity
  {
    var landed := Happen(w, ContactLands(w.comments[k].post));
    OneTableRuns(landed);
    CommentRowRead(landed, k, AutoWatermark(w.log));
    CommentRowRead(landed, k, None);
  }

  /** The same for the field-change history. */
  lemma {:induction false} LateContactIffInHistory(w: World, k: nat)
    requires k < |w.history| && HistlogId(k) !in w.activity
    ensures var landed := Happen(w, ContactLands(w.history[k].post));
            && (HistlogId(k) in Step(landed, DELTA).activity <==> Above(w.history[k], AutoWatermark(w.log)))
            && HistlogId(k) in Step(landed, RESCAN).activity
  {
    var landed := Happen(w, ContactLands(w.history[k].post));
    OneTableRuns(landed);
    AboveInWholeSeconds(w.history[k], AutoWatermark(w.log));
    HistoryRowRead(landed, k, AutoWatermark(w.log));
    HistoryRowRead(landed, k, None);
  }

  lemma {:induction false} LatestOfOne(log: seq<EtlRun>, run: EtlRun, table: TableName)
    ensures LatestFor(log + [run], table) == if Counts(run, table) then MaxOf(LatestFor(log, table), run.mark) else LatestFor(log, table)
  {
    assert (log + [run])[..|log|] == log;
  }

  function FullRunLog(postsMax: Option<nat>, mark: Option<nat>): seq<EtlRun> {
    [EtlRun(StaffIdentityLink, true, 0, None), EtlRun(Contacts, true, 0, postsMax), EtlRun(ContactAssignment, true, 0, None),
     EtlRun(ActivityLog, true, 0, mark), EtlRun(AdopterInterest, true, 0, None)]
  }

  lemma {:induction false} LatestOfFullRun(postsMax: Option<nat>, mark: Option<nat>, table: TableName)
    ensures LatestFor(FullRunLog(postsMax, mark), table)
         == match table case Contacts => postsMax case ActivityLog => mark case _ => None
  {
    var log := FullRunLog(postsMax, mark);
    assert log == log[..4] + [log[4]] && log[..4] == log[..3] + [log[3]] && log[..3] == log[..2] + [log[2]]
        && log[..2] == log[..1] + [log[1]] && log[..1] == [] + [log[0]];
    LatestOfOne([], log[0], table);
    LatestOfOne(log[..1], log[1], table);
    LatestOfOne(log[..2], log[2], table);
    LatestOfOne(log[..3], log[3], table);
    LatestOfOne(log[..4], log[4], table);
  }

  lemma {:induction false} WatermarkOfFullRun(postsMax: Option<nat>, mark: Option<nat>)
    ensures AutoWatermark(FullRunLog(postsMax, mark)) == MinOf(postsMax, mark)
  {
    LatestOfFullRun(postsMax, mark, StaffIdentityLink);
    LatestOfFullRun(postsMax, mark, Contacts);
    LatestOfFullRun(postsMax, mark, ContactAssignment);
    LatestOfFullRun(postsMax, mark, ActivityLog);
    LatestOfFullRun(postsMax, mark, AdopterInterest);
    LatestOfFullRun(postsMax, mark, Submissions);
  }

  lemma {:induction false} FiveTables(w: World, postsMax: Option<nat>)
    ensures FirstFullRun(w, postsMax)
         == TableDone(TableDone(TableDone(TableDone(TableDone(w, StaffIdentityLink, None, postsMax), Contacts, None, postsMax),
                                          ContactAssignment, None, postsMax), ActivityLog, None, postsMax), AdopterInterest, None, postsMax)
  {
    assert TablesDone(w, ALL_TABLES, 0, None, postsMax) == w;
    assert TablesDone(w, ALL_TABLES, 1, None, postsMax) == TableDone(w, StaffIdentityLink, None, postsMax);
    assert TablesDone(w, ALL_TABLES, 2, None, postsMax) == TableDone(TablesDone(w, ALL_TABLES, 1, None, postsMax), Contacts, None, postsMax);
    assert TablesDone(w, ALL_TABLES, 3, None, postsMax) == TableDone(TablesDone(w, ALL_TABLES, 2, None, postsMax), ContactAssignment, None, postsMax);
    assert TablesDone(w, ALL_TABLES, 4, None, postsMax) == TableDone(TablesDone(w, ALL_TABLES, 3, None, postsMax), ActivityLog, None, postsMax);
  }

  lemma {:induction false} FullRunLeaves(w: World, postsMax: Option<nat>)
    requires w.log == []
    ensures FirstFullRun(w, postsMax)
         == w.(activity := w.activity + Full(w), log := FullRunLog(postsMax, ActivityMark(w)))
  {
    FiveTables(w, postsMax);
    var log := FullRunLog(postsMax, ActivityMark(w));
    assert w.log + [log[0]] + [log[1]] + [log[2]] + [log[3]] + [log[4]] == log;
    var w3 := w.(log := w.log + [log[0]] + [log[1]] + [log[2]]);
    SameSourceSameFull(w, w3);
    assert TableDone(w3, ActivityLog, None, postsMax) == w3.(activity := w.activity + Full(w), log := w3.log + [log[3]]);
  }

  /** What the first full run on an empty log leaves: everything readable, and as watermark the older of
      the newest contact change and the newest row that both streams have reached. */
  lemma {:induction false} AfterTheFirstRun(w: World, postsMax: Option<nat>)
    requires w.log == []
    ensures var w' := FirstFullRun(w, postsMax);
            && SameSource(w, w') && w'.activity == w.activity + Full(w)
            && AutoWatermark(w'.log) == MinOf(postsMax, ActivityMark(w))
  {
    FullRunLeaves(w, postsMax);
    WatermarkOfFullRun(postsMax, ActivityMark(w));
  }

  /** So a comment whose contact was missing at the first full run reaches the next delta run, once the contact
      lands, if and only if some stream had nothing newer than it, or the contacts had not. */
  lemma {:induction false} LateContactAfterTheFirstRun(w: World, postsMax: Option<nat>, k: nat)
    requires w.log == [] && k < |w.comments| && w.comments[k].post !in w.imported && CommentId(k) !in w.activity
    ensures var landed := Happen(FirstFullRun(w, postsMax), ContactLands(w.comments[k].post));
            && CommentId(k) in Step(landed, RESCAN).activity
            && (CommentId(k) in Step(landed, DELTA).activity <==> Above(w.comments[k], MinOf(postsMax, ActivityMark(w))))
  {
    AfterTheFirstRun(w, postsMax);
    assert CommentId(k) !in Full(w);
    LateContactIff(FirstFullRun(w, postsMax), k);
  }

  /** The smallest case: one row in each stream at the same second, and no contact yet. */
  lemma {:induction false} LateContactLosesItsRows(post: PostId, at: Instant)
    ensures var w := World([Row(at, post)], [Row(at, post)], {}, {}, []);
            var landed := Happen(FirstFullRun(w, None), ContactLands(post));
            && CommentId(0) !in Step(landed, DELTA).activity && HistlogId(0) !in Step(landed, DELTA).activity
            && CommentId(0) in Step(landed, RESCAN).activity && HistlogId(0) in Step(landed, RESCAN).activity
  {
    var w := World([Row(at, post)], [Row(at, post)], {}, {}, []);
    AfterTheFirstRun(w, None);
    assert Full(w) == {};
    assert Latest(w.comments) == Some(at * SECOND) && Latest(w.history) == Some(at * SECOND);
    LateContactIff(FirstFullRun(w, None), 0);
    LateContactIffInHistory(FirstFullRun(w, None), 0);
  }
}
