/** Delta runs of the activity_log import: what the automatic watermark may skip. */
module DeltaSync {
  import opened Options

  type PostId = nat

  /** Instants in the source are whole seconds after the epoch. */
  type Instant = n: nat | n >= 1 witness 1

  /** A row's id is its position, since ids ascend. */
  datatype Row = Row(at: Instant, post: PostId)

  type Stream = seq<Row>

  datatype SourceId = CommentId(id: nat) | HistlogId(id: nat)

  datatype TableName = StaffIdentityLink | Contacts | ContactAssignment | ActivityLog | AdopterInterest | Submissions

  /** mark is source_max_modified_at, in microseconds like every watermark. */
  datatype EtlRun = EtlRun(table: TableName, production: bool, errors: nat, mark: Option<nat>)

  /** imported holds the posts that have a contact. */
  datatype World = World(comments: Stream, history: Stream, imported: set<PostId>, activity: set<SourceId>, log: seq<EtlRun>)

  const SECOND := 1_000_000

  // ---------------------------------------------------------------- watermarks

  function MinOf(a: Option<nat>, b: Option<nat>): Option<nat> {
    if a.None? then b else if b.None? then a else if a.value <= b.value then a else b
  }

  function MaxOf(a: Option<nat>, b: Option<nat>): Option<nat> {
    if a.None? then b else if b.None? then a else if a.value >= b.value then a else b
  }

  /** fetch_max_modified over one stream. */
  function Latest(stream: Stream): (latest: Option<nat>)
    ensures latest.None? <==> stream == []
    ensures latest.Some? ==> forall k :: 0 <= k < |stream| ==> stream[k].at * SECOND <= latest.value
    ensures latest.Some? ==> exists k :: 0 <= k < |stream| && stream[k].at * SECOND == latest.value
  {
    if stream == [] then None
    else
      var last := stream[|stream| - 1].at * SECOND;
      var earlier := Latest(stream[..|stream| - 1]);
      if earlier.Some? && earlier.value > last then earlier else Some(last)
  }

  /** MIN over the two streams that feed the table. */
  function ActivityMark(w: World): Option<nat> {
    MinOf(Latest(w.comments), Latest(w.history))
  }

  predicate Counts(r: EtlRun, table: TableName) {
    r.table == table && r.production && r.errors == 0 && r.mark.Some?
  }

  function LatestFor(log: seq<EtlRun>, table: TableName): (latest: Option<nat>)
    ensures latest.Some? ==> exists k :: 0 <= k < |log| && Counts(log[k], table) && log[k].mark == latest
    ensures forall k :: 0 <= k < |log| && Counts(log[k], table) ==> latest.Some? && log[k].mark.value <= latest.value
  {
    if log == [] then None
    else
      var last := log[|log| - 1];
      var earlier := LatestFor(log[..|log| - 1], table);
      assert forall k :: 0 <= k < |log| - 1 ==> log[k] == log[..|log| - 1][k];
      if Counts(last, table) then MaxOf(earlier, last.mark) else earlier
  }

  function MinOfThree(a: Option<nat>, b: Option<nat>, c: Option<nat>): (least: Option<nat>)
    ensures least in {a, b, c}
    ensures a.Some? || b.Some? || c.Some? ==> least.Some?
    ensures forall x :: x in {a, b, c} && x.Some? ==> least.value <= x.value
  {
    MinOf(MinOf(a, b), c)
  }

  /** The automatic watermark: MIN over the tables that have one of their MAX. */
  function AutoWatermark(log: seq<EtlRun>): Option<nat> {
    MinOf(
      MinOfThree(LatestFor(log, StaffIdentityLink), LatestFor(log, Contacts), LatestFor(log, ContactAssignment)),
      MinOfThree(LatestFor(log, ActivityLog), LatestFor(log, AdopterInterest), LatestFor(log, Submissions)))
  }

  /** It is at most the latest mark of every table, and the latest mark of some table. */
  lemma {:induction false} WatermarkIsLeastOfLatest(log: seq<EtlRun>, table: TableName)
    ensures LatestFor(log, table).Some? ==> AutoWatermark(log).Some? && AutoWatermark(log).value <= LatestFor(log, table).value
    ensures AutoWatermark(log).Some? ==> exists t :: LatestFor(log, t) == AutoWatermark(log)
  {
  }

  // ---------------------------------------------------------------- one import

  predicate CommentRead(r: Row, wm: Option<nat>) {
    wm.None? || r.at * SECOND > wm.value
  }

  /** The watermark is cut down to whole seconds first. */
  predicate HistoryRead(r: Row, wm: Option<nat>) {
    wm.None? || r.at > wm.value / SECOND
  }

  function ReadComments(comments: Stream, imported: set<PostId>, wm: Option<nat>): set<SourceId> {
    set k | 0 <= k < |comments| && CommentRead(comments[k], wm) && comments[k].post in imported :: CommentId(k)
  }

  function ReadHistory(history: Stream, imported: set<PostId>, wm: Option<nat>): set<SourceId> {
    set k | 0 <= k < |history| && HistoryRead(history[k], wm) && history[k].post in imported :: HistlogId(k)
  }

  function Readable(w: World, wm: Option<nat>): set<SourceId> {
    ReadComments(w.comments, w.imported, wm) + ReadHistory(w.history, w.imported, wm)
  }

  /** The ids that a full scan of the source imports. */
  function Full(w: World): set<SourceId> {
    Readable(w, None)
  }

  /** One table, committed. postsMax is the newest post_modified_gmt. */
  function TableDone(w: World, table: TableName, wm: Option<nat>, postsMax: Option<nat>): World {
    match table
    case ActivityLog =>
      w.(activity := w.activity + Readable(w, wm), log := w.log + [EtlRun(ActivityLog, true, 0, ActivityMark(w))])
    case Contacts => w.(log := w.log + [EtlRun(Contacts, true, 0, postsMax)])
    case _ => w.(log := w.log + [EtlRun(table, true, 0, None)])
  }

  /** How a run ends. A database error or the death of the process takes back the table it was at. Any
      other exception does not: releasing the advisory lock commits what that table had written so far,
      with its run row counting one error. */
  datatype Ending = Finished | RolledBack(at: nat) | HalfDone(at: nat, kept: set<SourceId>, mark: Option<nat>)

  function Completed(tables: seq<TableName>, ending: Ending): (n: nat)
    ensures n <= |tables|
  {
    if ending.Finished? || ending.at >= |tables| then |tables| else ending.at
  }

  function TablesDone(w: World, tables: seq<TableName>, n: nat, wm: Option<nat>, postsMax: Option<nat>): World
    requires n <= |tables|
  {
    if n == 0 then w else TableDone(TablesDone(w, tables, n - 1, wm, postsMax), tables[n - 1], wm, postsMax)
  }

  function LeftBehind(w: World, table: TableName, wm: Option<nat>, kept: set<SourceId>, mark: Option<nat>): World {
    w.(activity := w.activity + (if table.ActivityLog? then kept * Readable(w, wm) else {}),
       log := w.log + [EtlRun(table, true, 1, mark)])
  }

  /** The watermark is worked out once, before the first table. */
  function RunDone(w: World, tables: seq<TableName>, full: bool, postsMax: Option<nat>, ending: Ending): World {
    var wm := if full then None else AutoWatermark(w.log);
    var n := Completed(tables, ending);
    var w' := TablesDone(w, tables, n, wm, postsMax);
    if ending.HalfDone? && n < |tables| then LeftBehind(w', tables[n], wm, ending.kept, ending.mark) else w'
  }

  // ---------------------------------------------------------------- histories

  datatype Event =
    | Run(tables: seq<TableName>, full: bool, postsMax: Option<nat>, ending: Ending)
    | AddComment(row: Row)
    | AddHistory(row: Row)
    | ContactLands(post: PostId)
    | OtherRun(other: EtlRun)

  predicate Later(stream: Stream, row: Row) {
    forall k :: 0 <= k < |stream| ==> row.at > stream[k].at
  }

  predicate Mentions(stream: Stream, post: PostId) {
    exists k :: 0 <= k < |stream| && stream[k].post == post
  }

  /** Streams only gain rows newer than all they have; a contact is there before the first row about it;
      other runs (of forms, or dry) write no production row for activity_log. */
  predicate Allowed(w: World, ev: Event) {
    match ev
    case Run(_, _, _, _) => true
    case AddComment(row) => Later(w.comments, row)
    case AddHistory(row) => Later(w.history, row)
    case ContactLands(post) => !Mentions(w.comments, post) && !Mentions(w.history, post)
    case OtherRun(row) => !Counts(row, ActivityLog)
  }

  function Happen(w: World, ev: Event): World {
    match ev
    case Run(tables, full, postsMax, ending) => RunDone(w, tables, full, postsMax, ending)
    case AddComment(row) => w.(comments := w.comments + [row])
    case AddHistory(row) => w.(history := w.history + [row])
    case ContactLands(post) => w.(imported := w.imported + {post})
    case OtherRun(row) => w.(log := w.log + [row])
  }

  function Step(w: World, ev: Event): World {
    if Allowed(w, ev) then Happen(w, ev) else w
  }

  function History(w: World, events: seq<Event>): World {
    if events == [] then w else Step(History(w, events[..|events| - 1]), events[|events| - 1])
  }

  const ALL_TABLES := [StaffIdentityLink, Contacts, ContactAssignment, ActivityLog, AdopterInterest]

  function FirstFullRun(w: World, postsMax: Option<nat>): World {
    RunDone(w, ALL_TABLES, true, postsMax, Finished)
  }

  /** The event is a run that got through activity_log. */
  predicate ImportsActivity(ev: Event) {
    ev.Run? && Reaches(ev.tables, Completed(ev.tables, ev.ending))
  }

  // ---------------------------------------------------------------- invariant

  /** A mark is below the newest row of either stream, and everything up to it has been imported. */
  ghost predicate Honest(w: World, mark: nat) {
    && (exists k :: 0 <= k < |w.comments| && w.comments[k].at * SECOND >= mark)
    && (exists k :: 0 <= k < |w.history| && w.history[k].at * SECOND >= mark)
    && (forall k :: 0 <= k < |w.comments| && w.comments[k].at * SECOND <= mark && w.comments[k].post in w.imported ==> CommentId(k) in w.activity)
    && (forall k :: 0 <= k < |w.history| && w.history[k].at * SECOND <= mark && w.history[k].post in w.imported ==> HistlogId(k) in w.activity)
  }

  ghost predicate AllHonest(w: World) {
    forall k :: 0 <= k < |w.log| && Counts(w.log[k], ActivityLog) ==> Honest(w, w.log[k].mark.value)
  }

  ghost predicate Marked(w: World) {
    exists k :: 0 <= k < |w.log| && Counts(w.log[k], ActivityLog)
  }

  ghost predicate Sound(w: World, base: set<SourceId>) {
    w.comments != [] && w.history != [] && AllHonest(w) && Marked(w) && base <= w.activity <= base + Full(w)
  }

  /** A watermark that is safe to read from: everything at or below it is there. */
  ghost predicate Safe(w: World, wm: Option<nat>) {
    wm.Some? ==>
      && (forall k :: 0 <= k < |w.comments| && w.comments[k].at * SECOND <= wm.value && w.comments[k].post in w.imported ==> CommentId(k) in w.activity)
      && (forall k :: 0 <= k < |w.history| && w.history[k].at * SECOND <= wm.value && w.history[k].post in w.imported ==> HistlogId(k) in w.activity)
  }

  lemma {:induction false} AutoIsSafe(w: World)
    requires AllHonest(w) && Marked(w)
    ensures AutoWatermark(w.log).Some? && Safe(w, AutoWatermark(w.log))
  {
  }

  /** Reading above a safe watermark completes the import. */
  lemma {:induction false} ReadingCompletes(w: World, wm: Option<nat>)
    requires Safe(w, wm)
    ensures Full(w) <= w.activity + Readable(w, wm)
  {
  }

  lemma {:induction false} MarkIsHonest(w: World)
    requires w.comments != [] && w.history != [] && Full(w) <= w.activity
    ensures ActivityMark(w).Some? && Honest(w, ActivityMark(w).value)
  {
  }

  /** More imported rows and more marks of other kinds hurt no mark. */
  lemma {:induction false} StaysHonest(w: World, w': World, mark: nat)
    requires Honest(w, mark) && w'.comments == w.comments && w'.history == w.history && w'.imported == w.imported
    requires w.activity <= w'.activity
    ensures Honest(w', mark)
  {
  }

  predicate SameSource(w: World, w': World) {
    w'.comments == w.comments && w'.history == w.history && w'.imported == w.imported
  }

  lemma {:induction false} AppendKeepsHonest(w: World, w': World, row: EtlRun)
    requires AllHonest(w) && SameSource(w, w') && w.activity <= w'.activity && w'.log == w.log + [row]
    requires Counts(row, ActivityLog) ==> Honest(w', row.mark.value)
    ensures AllHonest(w') && (Marked(w) ==> Marked(w')) && (Counts(row, ActivityLog) ==> Marked(w'))
  {
    forall k | 0 <= k < |w'.log| && Counts(w'.log[k], ActivityLog) ensures Honest(w', w'.log[k].mark.value) {
      if k < |w.log| {
        StaysHonest(w, w', w.log[k].mark.value);
      }
    }
    assert forall k :: 0 <= k < |w.log| ==> w'.log[k] == w.log[k];
    assert w'.log[|w.log|] == row;
  }

  /** What each table of a run keeps. */
  ghost predicate Progress(w: World, w': World, wm: Option<nat>) {
    && AllHonest(w') && Safe(w', wm) && SameSource(w, w')
    && w.activity <= w'.activity <= w.activity + Full(w) && (Marked(w) ==> Marked(w'))
  }

  ghost predicate CaughtUp(w: World) {
    Marked(w) && Full(w) <= w.activity
  }

  lemma {:induction false} SameSourceSameFull(w: World, w': World)
    requires SameSource(w, w')
    ensures Full(w') == Full(w) && ActivityMark(w') == ActivityMark(w)
  {
  }

  lemma {:induction false} ProgressOnward(a: World, b: World, c: World, wm: Option<nat>)
    requires Progress(a, b, wm) && Progress(b, c, wm)
    ensures Progress(a, c, wm) && (CaughtUp(b) ==> CaughtUp(c))
  {
  }

  lemma {:induction false} ActivityProgress(w: World, wm: Option<nat>, postsMax: Option<nat>)
    requires w.comments != [] && w.history != [] && AllHonest(w) && Safe(w, wm)
    ensures var w' := TableDone(w, ActivityLog, wm, postsMax); Progress(w, w', wm) && CaughtUp(w')
  {
    var w' := TableDone(w, ActivityLog, wm, postsMax);
    ReadingCompletes(w, wm);
    SameSourceSameFull(w, w');
    MarkIsHonest(w');
    AppendKeepsHonest(w, w', w'.log[|w.log|]);
    ReadIsPartOfFull(w, wm);
  }

  lemma {:induction false} ReadIsPartOfFull(w: World, wm: Option<nat>)
    ensures Readable(w, wm) <= Full(w)
  {
  }

  lemma {:induction false} TableProgress(w: World, table: TableName, wm: Option<nat>, postsMax: Option<nat>)
    requires w.comments != [] && w.history != [] && AllHonest(w) && Safe(w, wm)
    ensures var w' := TableDone(w, table, wm, postsMax); Progress(w, w', wm) && (table.ActivityLog? ==> CaughtUp(w'))
  {
    if table.ActivityLog? {
      ActivityProgress(w, wm, postsMax);
    } else {
      var w' := TableDone(w, table, wm, postsMax);
      AppendKeepsHonest(w, w', w'.log[|w.log|]);
    }
  }

  predicate Reaches(tables: seq<TableName>, n: nat)
    requires n <= |tables|
  {
    exists k :: 0 <= k < n && tables[k].ActivityLog?
  }

  lemma {:induction false} TablesProgress(w: World, tables: seq<TableName>, n: nat, wm: Option<nat>, postsMax: Option<nat>)
    requires n <= |tables| && w.comments != [] && w.history != [] && AllHonest(w) && Safe(w, wm)
    ensures var w' := TablesDone(w, tables, n, wm, postsMax); Progress(w, w', wm) && (Reaches(tables, n) ==> CaughtUp(w'))
  {
    if n > 0 {
      TablesProgress(w, tables, n - 1, wm, postsMax);
      var before := TablesDone(w, tables, n - 1, wm, postsMax);
      TableProgress(before, tables[n - 1], wm, postsMax);
      ProgressOnward(w, before, TablesDone(w, tables, n, wm, postsMax), wm);
      assert Reaches(tables, n) ==> Reaches(tables, n - 1) || tables[n - 1].ActivityLog?;
    }
  }

  lemma {:induction false} LeftBehindProgress(w: World, table: TableName, wm: Option<nat>, kept: set<SourceId>, mark: Option<nat>)
    requires AllHonest(w) && Safe(w, wm)
    ensures Progress(w, LeftBehind(w, table, wm, kept, mark), wm)
  {
    var w' := LeftBehind(w, table, wm, kept, mark);
    AppendKeepsHonest(w, w', w'.log[|w.log|]);
    assert Readable(w, wm) <= Full(w);
  }

  lemma {:induction false} RunProgress(w: World, tables: seq<TableName>, full: bool, postsMax: Option<nat>, ending: Ending)
    requires w.comments != [] && w.history != [] && AllHonest(w) && (full || Marked(w))
    ensures var w' := RunDone(w, tables, full, postsMax, ending);
            Progress(w, w', None) && (ImportsActivity(Run(tables, full, postsMax, ending)) ==> CaughtUp(w'))
  {
    var wm := if full then None else AutoWatermark(w.log);
    var n := Completed(tables, ending);
    if !full {
      AutoIsSafe(w);
    }
    TablesProgress(w, tables, n, wm, postsMax);
    var done := TablesDone(w, tables, n, wm, postsMax);
    if ending.HalfDone? && n < |tables| {
      LeftBehindProgress(done, tables[n], wm, ending.kept, ending.mark);
      ProgressOnward(w, done, LeftBehind(done, tables[n], wm, ending.kept, ending.mark), wm);
    }
  }

  lemma {:induction false} RunKeepsSound(w: World, base: set<SourceId>, tables: seq<TableName>, full: bool, postsMax: Option<nat>, ending: Ending)
    requires Sound(w, base)
    ensures var w' := RunDone(w, tables, full, postsMax, ending);
            Sound(w', base) && (ImportsActivity(Run(tables, full, postsMax, ending)) ==> CaughtUp(w'))
  {
    RunProgress(w, tables, full, postsMax, ending);
    SameSourceSameFull(w, RunDone(w, tables, full, postsMax, ending));
  }

  /** A row newer than a stream is above every mark that the stream has reached. */
  lemma {:induction false} NewerIsAbove(stream: Stream, row: Row, mark: nat, k: nat)
    requires Later(stream, row) && k < |stream| && stream[k].at * SECOND >= mark
    ensures row.at * SECOND > mark
  {
  }

  lemma {:induction false} CommentKeepsHonest(w: World, row: Row, mark: nat)
    requires Honest(w, mark) && Later(w.comments, row)
    ensures Honest(w.(comments := w.comments + [row]), mark)
  {
    var k :| 0 <= k < |w.comments| && w.comments[k].at * SECOND >= mark;
    NewerIsAbove(w.comments, row, mark, k);
    var comments := w.comments + [row];
    assert comments[k] == w.comments[k] && comments[|w.comments|] == row;
    assert forall j :: 0 <= j < |w.comments| ==> comments[j] == w.comments[j];
  }

  lemma {:induction false} HistoryKeepsHonest(w: World, row: Row, mark: nat)
    requires Honest(w, mark) && Later(w.history, row)
    ensures Honest(w.(history := w.history + [row]), mark)
  {
    var k :| 0 <= k < |w.history| && w.history[k].at * SECOND >= mark;
    NewerIsAbove(w.history, row, mark, k);
    var history := w.history + [row];
    assert history[k] == w.history[k] && history[|w.history|] == row;
    assert forall j :: 0 <= j < |w.history| ==> history[j] == w.history[j];
  }

  lemma {:induction false} FullGrows(w: World, w': World)
    requires w.comments <= w'.comments && w.history <= w'.history && w.imported <= w'.imported
    ensures Full(w) <= Full(w')
  {
  }

  lemma {:induction false} EventKeepsSound(w: World, base: set<SourceId>, ev: Event)
    requires Sound(w, base) && Allowed(w, ev) && !ev.Run?
    ensures Sound(Happen(w, ev), base)
  {
    var w' := Happen(w, ev);
    FullGrows(w, w');
    assert forall k :: 0 <= k < |w.log| ==> w'.log[k] == w.log[k];
    match ev
    case AddComment(row) =>
      forall k | 0 <= k < |w.log| && Counts(w.log[k], ActivityLog) ensures Honest(w', w.log[k].mark.value) {
        CommentKeepsHonest(w, row, w.log[k].mark.value);
      }
    case AddHistory(row) =>
      forall k | 0 <= k < |w.log| && Counts(w.log[k], ActivityLog) ensures Honest(w', w.log[k].mark.value) {
        HistoryKeepsHonest(w, row, w.log[k].mark.value);
      }
    case OtherRun(row) => AppendKeepsHonest(w, w', row);
    case ContactLands(post) =>
      forall k | 0 <= k < |w.log| && Counts(w.log[k], ActivityLog) ensures Honest(w', w.log[k].mark.value) {
        assert Honest(w, w.log[k].mark.value);
      }
    case Run(_, _, _, _) =>
  }

  lemma {:induction false} HistoryKeepsSound(w: World, base: set<SourceId>, events: seq<Event>)
    requires Sound(w, base)
    ensures Sound(History(w, events), base)
  {
    if events != [] {
      var before := History(w, events[..|events| - 1]);
      HistoryKeepsSound(w, base, events[..|events| - 1]);
      match events[|events| - 1]
      case Run(tables, full, postsMax, ending) => RunKeepsSound(before, base, tables, full, postsMax, ending);
      case ev =>
        if Allowed(before, ev) {
          EventKeepsSound(before, base, ev);
        }
    }
  }

  /** No production run of activity_log has left a mark yet. */
  predicate Unmarked(w: World) {
    forall k :: 0 <= k < |w.log| ==> !Counts(w.log[k], ActivityLog)
  }

  lemma {:induction false} FirstRunIsSound(w: World, postsMax: Option<nat>)
    requires Unmarked(w) && w.comments != [] && w.history != []
    ensures Sound(FirstFullRun(w, postsMax), w.activity)
  {
    RunProgress(w, ALL_TABLES, true, postsMax, Finished);
    assert ALL_TABLES[3].ActivityLog?;
    SameSourceSameFull(w, FirstFullRun(w, postsMax));
  }

  // ---------------------------------------------------------------- main results

  /** From a full run with both streams non-empty on: whatever the history, a delta run that gets through
      activity_log leaves exactly the source ids that one full scan would leave. */
  lemma {:induction false} DeltaEqualsFull(w: World, postsMax: Option<nat>, events: seq<Event>, last: Event)
    requires Unmarked(w) && w.comments != [] && w.history != []
    requires ImportsActivity(last)
    ensures var w' := History(FirstFullRun(w, postsMax), events + [last]);
            w'.activity == w.activity + Full(w')
  {
    var first := FirstFullRun(w, postsMax);
    FirstRunIsSound(w, postsMax);
    HistoryKeepsSound(first, w.activity, events);
    assert (events + [last])[..|events|] == events;
    RunKeepsSound(History(first, events), w.activity, last.tables, last.full, last.postsMax, last.ending);
  }

  /** Nothing that is not in the source is ever imported, and nothing imported is lost, at any point. */
  lemma {:induction false} NothingInventedNothingLost(w: World, postsMax: Option<nat>, events: seq<Event>)
    requires Unmarked(w) && w.comments != [] && w.history != []
    ensures var w' := History(FirstFullRun(w, postsMax), events); w.activity <= w'.activity <= w.activity + Full(w')
  {
    FirstRunIsSound(w, postsMax);
    HistoryKeepsSound(FirstFullRun(w, postsMax), w.activity, events);
  }
}
