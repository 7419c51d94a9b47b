/** The importer itself: batches, per-row branches and counters, as the loops run them. */
module ContactImporter {
  import opened Options
  import opened ContactTables
  import opened ContactSafety
  import opened ContactPass
  import opened ContactOutcome

  datatype Counts = Counts(rowsIn: nat, inserted: nat, skipped: nat, inConflict: nat, suppressed: nat)

  const ZERO := Counts(0, 0, 0, 0, 0)

  // ---------------------------------------------------------------- what the counters mean

  datatype Fate = Hidden | PassedOver | Stored

  /** Decided by the tables alone, before the pass starts. */
  function FateOf(t: Tables, p: Post): Fate {
    if SuppressedId(t, p.id) then Hidden
    else if p.mapped.Unmapped? then PassedOver
    else if !Active(t, p) then Hidden
    else if Frozen(t, p.id) then PassedOver
    else Stored
  }

  function Counted(t: Tables, posts: seq<Post>, fate: Fate): nat {
    if posts == [] then 0
    else Counted(t, posts[..|posts| - 1], fate) + if FateOf(t, posts[|posts| - 1]) == fate then 1 else 0
  }

  function ConflictsOf(now: Run, p: Post): nat {
    (if !SuppressedId(now.tables, p.id) && p.mapped.Unmapped? then 1 else 0)
    + (if Active(now.tables, p) && Loses(now.owner, p) then 1 else 0)
    + (if Active(now.tables, p) && Frozen(now.tables, p.id) then 1 else 0)
  }

  function Tally(s: Run, posts: seq<Post>): nat {
    if posts == [] then 0
    else
      var init := posts[..|posts| - 1];
      Tally(s, init) + match ImportRows(s, init) case Aborted => 0 case Done(now) => ConflictsOf(now, posts[|posts| - 1])
  }

  function KindsOf(p: Post): set<ConflictKind> {
    {DuplicateEmail, LocallyModified} + if p.mapped.Unmapped? then {UnmappedStatus(p.mapped.partyKind)} else {}
  }

  /** The (post, kind) pairs that a pass flags, read off the state it starts in. */
  function FlaggedKeys(s: Run, posts: seq<Post>): (keys: set<ConflictKey>)
    ensures forall key :: key in keys <==> Flagged(s, posts, key)
  {
    set p, kind | p in posts && kind in KindsOf(p) && Flags(s, posts, p, kind) :: ConflictKey(p.id, kind)
  }

  function IfFlagged(now: Run, p: Post, kind: ConflictKind): (keys: set<ConflictKey>)
    ensures |keys| == if RowFlags(now, p, kind) then 1 else 0
  {
    if RowFlags(now, p, kind) then {ConflictKey(p.id, kind)} else {}
  }

  /** What one row adds to them. */
  function RowKeys(now: Run, p: Post): (keys: set<ConflictKey>)
    ensures forall key :: key in keys <==> key.sourceId == p.id && RowFlags(now, p, key.kind)
  {
    if p.mapped.Unmapped? then IfFlagged(now, p, UnmappedStatus(p.mapped.partyKind))
    else IfFlagged(now, p, DuplicateEmail) + IfFlagged(now, p, LocallyModified)
  }

  lemma {:induction false} RowKeysCounted(now: Run, p: Post)
    ensures |RowKeys(now, p)| == ConflictsOf(now, p)
  {
    if p.mapped.Mapped? {
      assert IfFlagged(now, p, DuplicateEmail) !! IfFlagged(now, p, LocallyModified);
    }
  }

  lemma {:induction false} FlaggedOneMore(s: Run, posts: seq<Post>, now: Run)
    requires DistinctIds(posts) && posts != [] && ClosedForm(s, posts[..|posts| - 1], now)
    ensures var init, p := posts[..|posts| - 1], posts[|posts| - 1];
      FlaggedKeys(s, posts) == FlaggedKeys(s, init) + RowKeys(now, p) && FlaggedKeys(s, init) !! RowKeys(now, p)
  {
    FrozenSame(s.tables, now.tables);
    forall key {
      FlaggedStep(s, posts, now, key);
    }
  }

  /** The conflict counter after the posts is the number of pairs flagged, whether or not a conflict of
      the same key was already on record. */
  lemma {:induction false} TallyIsFlagged(s: Run, posts: seq<Post>)
    requires Consistent(s) && DistinctIds(posts)
    ensures Tally(s, posts) == |FlaggedKeys(s, posts)|
  {
    if posts == [] {
      assert FlaggedKeys(s, posts) == {};
    } else {
      var init := posts[..|posts| - 1];
      TallyIsFlagged(s, init);
      PassClosedForm(s, init);
      var now := ImportRows(s, init).run;
      FlaggedOneMore(s, posts, now);
      RowKeysCounted(now, posts[|posts| - 1]);
    }
  }

  /** A row is counted as suppressed exactly when a hard delete is on record for it, and as inserted exactly
      when it goes through. */
  lemma {:induction false} FateTells(t: Tables, p: Post)
    ensures FateOf(t, p) == Hidden <==> Suppresses(t, p)
    ensures FateOf(t, p) == Stored <==> GoesThrough(t, p)
  {
    ActiveMeans(t, p);
    assert DtKey(p.id) == Key(Some("dt"), Some(p.id));
  }

  ghost function RowsHidden(t: Tables, posts: seq<Post>): set<int> {
    set i | 0 <= i < |posts| && Suppresses(t, posts[i])
  }

  ghost function RowsThrough(t: Tables, posts: seq<Post>): set<int> {
    set i | 0 <= i < |posts| && GoesThrough(t, posts[i])
  }

  lemma {:induction false} OneMoreIn(rows: set<int>, n: int, more: bool)
    requires n !in rows
    ensures |rows + if more then {n} else {}| == |rows| + if more then 1 else 0
  {
    assert rows + {} == rows;
  }

  lemma {:induction false} OneMoreRow(t: Tables, done: seq<Post>, p: Post)
    ensures RowsHidden(t, done + [p]) == RowsHidden(t, done) + (if Suppresses(t, p) then {|done|} else {})
    ensures RowsThrough(t, done + [p]) == RowsThrough(t, done) + (if GoesThrough(t, p) then {|done|} else {})
  {
    assert forall i :: 0 <= i < |done| ==> (done + [p])[i] == done[i];
  }

  /** The counters of a pass are the numbers of such rows. */
  lemma {:induction false} CountersTell(t: Tables, posts: seq<Post>)
    ensures Counted(t, posts, Hidden) == |RowsHidden(t, posts)|
    ensures Counted(t, posts, Stored) == |RowsThrough(t, posts)|
  {
    if posts != [] {
      var init, p := posts[..|posts| - 1], posts[|posts| - 1];
      CountersTell(t, init);
      FateTells(t, p);
      assert posts == init + [p];
      OneMoreRow(t, init, p);
      OneMoreIn(RowsHidden(t, init), |init|, Suppresses(t, p));
      OneMoreIn(RowsThrough(t, init), |init|, GoesThrough(t, p));
    }
  }

  /** Each row is inserted or refreshed, skipped, or suppressed, and only once. */
  lemma {:induction false} EveryRowIsCountedOnce(t: Tables, posts: seq<Post>)
    ensures Counted(t, posts, Stored) + Counted(t, posts, PassedOver) + Counted(t, posts, Hidden) == |posts|
  {
    if posts != [] {
      EveryRowIsCountedOnce(t, posts[..|posts| - 1]);
    }
  }

  /** The fate of a row does not depend on the rows imported before it. */
  lemma {:induction false} FateIsStable(t: Tables, t': Tables, p: Post)
    requires Respects(t, t')
    ensures FateOf(t', p) == FateOf(t, p)
  {
  }

  lemma {:induction false} Slices(done: seq<Post>, batch: seq<Post>)
    ensures done + batch[..0] == done && done + batch[..|batch|] == done + batch
    ensures forall i :: 0 <= i < |batch| ==> done + batch[..i] + [batch[i]] == done + batch[..i + 1]
  {
  }

  class Importer {
    var tables: Tables
    var emailOwner: map<Email, Key>
    var counts: Counts

    ghost function Now(): Run
      reads this
    {
      Run(tables, emailOwner)
    }

    constructor (tables: Tables)
      ensures this.tables == tables && emailOwner == map[] && counts == ZERO
    {
      this.tables, emailOwner, counts := tables, map[], ZERO;
    }

    /** What the counters say after the posts in done, for an import that began in start. */
    ghost predicate Counting(start: Run, done: seq<Post>)
      reads this
    {
      && counts.rowsIn == |done|
      && counts.inserted == Counted(start.tables, done, Stored)
      && counts.skipped == Counted(start.tables, done, PassedOver)
      && counts.suppressed == Counted(start.tables, done, Hidden)
      && counts.inConflict == Tally(start, done)
    }

    /** One post, with the branches in the order in which the source takes them. */
    method ImportPost(p: Post)
      requires Consistent(Now())
      modifies this
      ensures ImportRow(old(Now()), p) == Done(Now())
      ensures RowLeft(old(tables), tables.dt, p)
      ensures counts.rowsIn == old(counts.rowsIn) + 1
      ensures counts.inserted == old(counts.inserted) + if FateOf(old(tables), p) == Stored then 1 else 0
      ensures counts.skipped == old(counts.skipped) + if FateOf(old(tables), p) == PassedOver then 1 else 0
      ensures counts.suppressed == old(counts.suppressed) + if FateOf(old(tables), p) == Hidden then 1 else 0
      ensures counts.inConflict == old(counts.inConflict) + ConflictsOf(old(Now()), p)
    {
      RowIsRefreshed(Now(), p);
      counts := counts.(rowsIn := counts.rowsIn + 1);
      if SuppressedId(tables, p.id) {
        counts := counts.(suppressed := counts.suppressed + 1);
        return;
      }
      if p.mapped.Unmapped? {
        counts := counts.(inConflict := counts.inConflict + 1);
        tables := RecordConflict(tables, p.id, UnmappedStatus(p.mapped.partyKind), p.mapped.rawStatus);
        counts := counts.(skipped := counts.skipped + 1);
        return;
      }
      var email := p.mapped.email;
      if email.Some? && SuppressedEmail(tables, email.value) {
        counts := counts.(suppressed := counts.suppressed + 1);
        return;
      }
      if email.Some? {
        if email.value in emailOwner && emailOwner[email.value] != DtKey(p.id) {
          counts := counts.(inConflict := counts.inConflict + 1);
          tables := RecordConflict(tables, p.id, DuplicateEmail, email.value);
          email := None;
        } else {
          emailOwner := emailOwner[email.value := DtKey(p.id)];
        }
      }
      Store(p, email);
    }

    /** The upsert, and what the loop does with a row that it skipped. */
    method Store(p: Post, email: Option<Email>)
      requires p.mapped.Mapped? && !UpsertContact(tables, p.id, email, p.mapped).UniqueViolation?
      modifies this`tables, this`counts
      ensures Frozen(old(tables), p.id) ==>
                && tables == RecordConflict(old(tables), p.id, LocallyModified, p.mapped.imported.displayName)
                && counts == old(counts).(skipped := old(counts).skipped + 1, inConflict := old(counts).inConflict + 1)
      ensures !Frozen(old(tables), p.id) ==>
                && Written(tables) == UpsertContact(old(tables), p.id, email, p.mapped)
                && counts == old(counts).(inserted := old(counts).inserted + 1)
    {
      match UpsertContact(tables, p.id, email, p.mapped)
      case Skipped =>
        counts := counts.(skipped := counts.skipped + 1, inConflict := counts.inConflict + 1);
        tables := RecordConflict(tables, p.id, LocallyModified, p.mapped.imported.displayName);
      case Written(t') =>
        tables := t';
        counts := counts.(inserted := counts.inserted + 1);
    }

    /** How far an import that began in start has come after the posts in done. */
    ghost predicate Progress(start: Run, done: seq<Post>)
      reads this
    {
      && Consistent(start) && Consistent(Now())
      && ImportRows(start, done) == Done(Now())
      && Respects(start.tables, tables)
      && Counting(start, done)
    }

    method ImportNext(ghost start: Run, ghost done: seq<Post>, p: Post)
      requires Progress(start, done)
      modifies this
      ensures Progress(start, done + [p])
    {
      ghost var before := Now();
      RowKeepsIndex(before, p);
      RowRespects(before, p);
      FateIsStable(start.tables, before.tables, p);
      ImportPost(p);
      RespectsTransitive(start.tables, before.tables, tables);
      assert (done + [p])[..|done|] == done;
    }

    method FlushContactBatch(ghost start: Run, ghost done: seq<Post>, batch: seq<Post>)
      requires Progress(start, done)
      modifies this
      ensures Progress(start, done + batch)
    {
      Slices(done, batch);
      for i := 0 to |batch|
        invariant Progress(start, done + batch[..i])
      {
        ImportNext(start, done + batch[..i], batch[i]);
      }
    }

    method ImportBatches(ghost start: Run, posts: seq<Post>, batchSize: int)
      requires Progress(start, [])
      modifies this
      ensures Progress(start, posts)
    {
      var batch: seq<Post> := [];
      ghost var flushed: seq<Post> := [];
      for i := 0 to |posts|
        invariant flushed + batch == posts[..i]
        invariant Progress(start, flushed)
      {
        batch := batch + [posts[i]];
        assert flushed + batch == posts[..i + 1];
        if |batch| >= batchSize {
          FlushContactBatch(start, flushed, batch);
          flushed, batch := flushed + batch, [];
          assert flushed + batch == posts[..i + 1];
        }
      }
      if batch != [] {
        FlushContactBatch(start, flushed, batch);
        flushed := flushed + batch;
      }
      assert flushed == posts;
    }

    method Begin()
      requires WellFormed(tables)
      modifies this`emailOwner, this`counts
      ensures Now() == Start(tables) && counts == ZERO
    {
      counts := ZERO;
      emailOwner := LoadEmailOwners(tables);
    }

    /** The result does not mention batchSize: batches of any size, even a degenerate one, leave
        the same tables and counters. */
    method ImportContacts(posts: seq<Post>, batchSize: int)
      requires WellFormed(tables)
      modifies this
      ensures tables == Pass(old(tables), posts)
      ensures DistinctIds(posts) ==> forall p :: p in posts && GoesThrough(old(tables), p) ==> Refreshed(old(tables).dt, tables.dt, p)
      ensures counts.rowsIn == |posts| == counts.inserted + counts.skipped + counts.suppressed
      ensures counts.inserted == Counted(old(tables), posts, Stored)
      ensures counts.suppressed == Counted(old(tables), posts, Hidden)
      ensures DistinctIds(posts) ==> counts.inConflict == |FlaggedKeys(Start(old(tables)), posts)|
    {
      ghost var t := tables;
      Begin();
      Beginning(t);
      ImportBatches(Start(t), posts, batchSize);
      WholeImport(t, posts, Now());
      EveryPostIsRefreshed(t, posts);
    }
  }

  lemma {:induction false} Beginning(t: Tables)
    requires WellFormed(t)
    ensures Consistent(Start(t)) && Respects(t, t) && Start(t).tables == t
  {
  }

  lemma {:induction false} EveryPostIsRefreshed(t: Tables, posts: seq<Post>)
    requires WellFormed(t)
    ensures DistinctIds(posts) ==> forall p :: p in posts && GoesThrough(t, p) ==> Refreshed(t.dt, Pass(t, posts).dt, p)
  {
    if DistinctIds(posts) {
      forall p | p in posts && GoesThrough(t, p) ensures Refreshed(t.dt, Pass(t, posts).dt, p) {
        WrittenRowsAreRefreshed(t, posts, p);
      }
    }
  }

  /** What an import that got through the posts has come to. */
  lemma {:induction false} WholeImport(t: Tables, posts: seq<Post>, s: Run)
    requires WellFormed(t) && ImportRows(Start(t), posts) == Done(s)
    ensures Pass(t, posts) == s.tables
    ensures Counted(t, posts, Stored) + Counted(t, posts, PassedOver) + Counted(t, posts, Hidden) == |posts|
    ensures DistinctIds(posts) ==> Tally(Start(t), posts) == |FlaggedKeys(Start(t), posts)|
  {
    EveryRowIsCountedOnce(t, posts);
    if DistinctIds(posts) {
      StartIsConsistent(t);
      TallyIsFlagged(Start(t), posts);
    }
  }
}
