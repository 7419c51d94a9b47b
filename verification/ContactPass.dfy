/** A whole contacts pass in closed form: who wins each email, which row each post leaves and
    which conflicts are recorded, read off the starting tables without running the loop. */
module ContactPass {
  import opened Options
  import opened ContactTables
  import opened ContactSafety

  predicate Claims(t: Tables, p: Post, e: Email) {
    Active(t, p) && p.mapped.email == Some(e)
  }

  /** The first post, in source order, that asks for an email. */
  function FirstClaimant(t: Tables, posts: seq<Post>, e: Email): Option<SourceId> {
    if posts == [] then None
    else
      var earlier := FirstClaimant(t, posts[..|posts| - 1], e);
      var last := posts[|posts| - 1];
      if earlier.None? && Claims(t, last, e) then Some(last.id) else earlier
  }

  /** Who owns an email for the whole pass that starts in s: the row the dictionary already
      names, else the first claimant. */
  function Winner(s: Run, posts: seq<Post>, e: Email): Option<Key> {
    if e in s.owner then Some(s.owner[e])
    else
      match FirstClaimant(s.tables, posts, e)
      case None => None
      case Some(id) => Some(DtKey(id))
  }

  predicate Wins(s: Run, posts: seq<Post>, p: Post) {
    p.mapped.Mapped? && p.mapped.email.Some? && Winner(s, posts, p.mapped.email.value) == Some(DtKey(p.id))
  }

  /** The row a pass leaves for a post it writes. */
  function FinalRow(s: Run, posts: seq<Post>, p: Post): Contact
    requires Writes(s.tables, p)
  {
    WrittenContact(s.tables, p.id, if Wins(s, posts, p) then p.mapped.email else None, p.mapped)
  }

  /** The conflicts a pass detects for a post. */
  predicate Flags(s: Run, posts: seq<Post>, p: Post, kind: ConflictKind) {
    match kind
    case UnmappedStatus(k) => !SuppressedId(s.tables, p.id) && p.mapped.Unmapped? && p.mapped.partyKind == k
    case DuplicateEmail => Active(s.tables, p) && p.mapped.email.Some? && !Wins(s, posts, p)
    case LocallyModified => Active(s.tables, p) && Frozen(s.tables, p.id)
  }

  // ---------------------------------------------------------------- the closed form of a pass

  lemma {:induction false} SameSuppression(t1: Tables, t2: Tables, p: Post)
    requires t1.deleted == t2.deleted
    ensures Active(t1, p) == Active(t2, p)
    ensures SuppressedId(t1, p.id) == SuppressedId(t2, p.id)
  {
  }

  lemma {:induction false} ClaimantExists(t: Tables, posts: seq<Post>, p: Post)
    requires p in posts && Active(t, p) && p.mapped.email.Some?
    ensures FirstClaimant(t, posts, p.mapped.email.value).Some?
  {
    if p != posts[|posts| - 1] {
      ClaimantExists(t, posts[..|posts| - 1], p);
    }
  }

  lemma {:induction false} EarlierWinsStand(s: Run, posts: seq<Post>, p: Post)
    requires posts != [] && p in posts[..|posts| - 1] && Active(s.tables, p)
    ensures Wins(s, posts, p) == Wins(s, posts[..|posts| - 1], p)
  {
    if p.mapped.email.Some? {
      ClaimantExists(s.tables, posts[..|posts| - 1], p);
    }
  }

  ghost predicate DictionaryIs(s: Run, posts: seq<Post>, owner: map<Email, Key>) {
    forall e :: Winner(s, posts, e) == if e in owner then Some(owner[e]) else None
  }

  lemma {:induction false} ClaimStep(s: Run, posts: seq<Post>, owner: map<Email, Key>)
    requires posts != [] && DictionaryIs(s, posts[..|posts| - 1], owner)
    ensures var p := posts[|posts| - 1];
      DictionaryIs(s, posts, if Active(s.tables, p) then Claim(owner, p) else owner)
  {
  }

  /** The rows a prefix of the pass has written. */
  ghost predicate RowsWritten(s: Run, posts: seq<Post>, dt: map<SourceId, Contact>) {
    && (forall p :: p in posts && Writes(s.tables, p) ==> p.id in dt && dt[p.id] == FinalRow(s, posts, p))
    && (forall id :: (forall p :: p in posts && Writes(s.tables, p) ==> p.id != id) ==>
          (id in dt <==> id in s.tables.dt) && (id in s.tables.dt ==> dt[id] == s.tables.dt[id]))
  }

  /** The last row, as the loop writes it, is its final row. */
  lemma {:induction false} LastRow(s: Run, posts: seq<Post>, now: Run)
    requires posts != [] && Writes(s.tables, posts[|posts| - 1])
    requires DictionaryIs(s, posts[..|posts| - 1], now.owner)
    requires var id := posts[|posts| - 1].id;
      (id in now.tables.dt <==> id in s.tables.dt) && (id in s.tables.dt ==> now.tables.dt[id] == s.tables.dt[id])
    ensures WrittenRow(now, posts[|posts| - 1]) == FinalRow(s, posts, posts[|posts| - 1])
  {
  }

  /** The claim of the last row is decided for good when the row is reached. */
  lemma {:induction false} LossIsFinal(s: Run, posts: seq<Post>, now: Run)
    requires posts != [] && Active(s.tables, posts[|posts| - 1])
    requires DictionaryIs(s, posts[..|posts| - 1], now.owner)
    ensures var p := posts[|posts| - 1]; p.mapped.email.Some? ==> Loses(now.owner, p) == !Wins(s, posts, p)
    ensures var p := posts[|posts| - 1]; p.mapped.email.None? ==> !Loses(now.owner, p) && !Wins(s, posts, p)
  {
  }

  lemma {:induction false} UnwrittenSoFar(s: Run, posts: seq<Post>, dt: map<SourceId, Contact>, id: SourceId)
    requires RowsWritten(s, posts, dt)
    requires forall p :: p in posts && Writes(s.tables, p) ==> p.id != id
    ensures id in dt <==> id in s.tables.dt
    ensures id in dt ==> dt[id] == s.tables.dt[id]
  {
  }

  /** A row written earlier in the pass is still its final row. */
  lemma {:induction false} EarlierRowStands(s: Run, posts: seq<Post>, dt: map<SourceId, Contact>, q: Post)
    requires posts != [] && RowsWritten(s, posts[..|posts| - 1], dt)
    requires q in posts[..|posts| - 1] && Writes(s.tables, q)
    ensures q.id in dt && dt[q.id] == FinalRow(s, posts, q)
  {
    EarlierWinsStand(s, posts, q);
  }

  /** A prefix in which the last row found its own row as it was when the pass began. */
  lemma {:induction false} LastIsUnwritten(s: Run, posts: seq<Post>, dt: map<SourceId, Contact>)
    requires DistinctIds(posts) && posts != [] && RowsWritten(s, posts[..|posts| - 1], dt)
    ensures var id := posts[|posts| - 1].id; (id in dt <==> id in s.tables.dt) && (id in s.tables.dt ==> dt[id] == s.tables.dt[id])
  {
    UnwrittenSoFar(s, posts[..|posts| - 1], dt, posts[|posts| - 1].id);
  }

  /** A row that no post of the pass writes is as it was when the pass began. */
  lemma {:induction false} StillUnwritten(s: Run, posts: seq<Post>, dt: map<SourceId, Contact>, id: SourceId)
    requires posts != [] && RowsWritten(s, posts[..|posts| - 1], dt)
    requires forall q :: q in posts && Writes(s.tables, q) ==> q.id != id
    ensures (id in dt <==> id in s.tables.dt) && (id in s.tables.dt ==> dt[id] == s.tables.dt[id])
  {
    assert posts == posts[..|posts| - 1] + [posts[|posts| - 1]];
    UnwrittenSoFar(s, posts[..|posts| - 1], dt, id);
  }

  /** The step from a prefix to a row that is written. */
  lemma {:induction false} WritingStep(s: Run, posts: seq<Post>, dt: map<SourceId, Contact>)
    requires DistinctIds(posts) && posts != [] && RowsWritten(s, posts[..|posts| - 1], dt)
    requires Writes(s.tables, posts[|posts| - 1])
    ensures var p := posts[|posts| - 1]; RowsWritten(s, posts, dt[p.id := FinalRow(s, posts, p)])
  {
    var p := posts[|posts| - 1];
    var row := FinalRow(s, posts, p);
    forall q | q in posts && Writes(s.tables, q) ensures q.id in dt[p.id := row] && dt[p.id := row][q.id] == FinalRow(s, posts, q) {
      if q != p {
        EarlierRowStands(s, posts, dt, q);
      }
    }
    forall id | forall q :: q in posts && Writes(s.tables, q) ==> q.id != id
      ensures (id in dt <==> id in s.tables.dt) && (id in s.tables.dt ==> dt[id] == s.tables.dt[id]) && id != p.id
    {
      StillUnwritten(s, posts, dt, id);
    }
  }

  /** And to one that is not. */
  lemma {:induction false} PassingStep(s: Run, posts: seq<Post>, dt: map<SourceId, Contact>)
    requires posts != [] && RowsWritten(s, posts[..|posts| - 1], dt)
    requires !Writes(s.tables, posts[|posts| - 1])
    ensures RowsWritten(s, posts, dt)
  {
    var init, p := posts[..|posts| - 1], posts[|posts| - 1];
    assert posts == init + [p];
    forall q | q in posts && Writes(s.tables, q) ensures q.id in dt && dt[q.id] == FinalRow(s, posts, q) {
      EarlierRowStands(s, posts, dt, q);
    }
    forall id | forall q :: q in posts && Writes(s.tables, q) ==> q.id != id
      ensures (id in dt <==> id in s.tables.dt) && (id in s.tables.dt ==> dt[id] == s.tables.dt[id])
    {
      StillUnwritten(s, posts, dt, id);
    }
  }

  lemma {:induction false} RowStep(s: Run, posts: seq<Post>, now: Run)
    requires DistinctIds(posts) && posts != []
    requires RowsWritten(s, posts[..|posts| - 1], now.tables.dt)
    requires DictionaryIs(s, posts[..|posts| - 1], now.owner)
    requires Writes(now.tables, posts[|posts| - 1]) == Writes(s.tables, posts[|posts| - 1])
    ensures var p := posts[|posts| - 1];
      RowsWritten(s, posts, if Writes(now.tables, p) then now.tables.dt[p.id := WrittenRow(now, p)] else now.tables.dt)
  {
    if Writes(s.tables, posts[|posts| - 1]) {
      LastIsUnwritten(s, posts, now.tables.dt);
      LastRow(s, posts, now);
      WritingStep(s, posts, now.tables.dt);
    } else {
      PassingStep(s, posts, now.tables.dt);
    }
  }

  predicate RowFlags(now: Run, p: Post, kind: ConflictKind) {
    match kind
    case UnmappedStatus(k) => !SuppressedId(now.tables, p.id) && p.mapped.Unmapped? && p.mapped.partyKind == k
    case DuplicateEmail => Active(now.tables, p) && Loses(now.owner, p)
    case LocallyModified => Active(now.tables, p) && Frozen(now.tables, p.id)
  }

  /** The conflicts a row adds, branch by branch. */
  lemma {:induction false} RowConflicts(now: Run, p: Post)
    requires Consistent(now)
    ensures ImportRow(now, p).Done?
    ensures Recorded(now.tables.conflicts, ImportRow(now, p).run.tables.conflicts, now, p)
  {
    RowKeepsIndex(now, p);
    if Active(now.tables, p) {
      var t := if Loses(now.owner, p) then RecordConflict(now.tables, p.id, DuplicateEmail, p.mapped.email.value) else now.tables;
      var after := ImportRow(now, p).run.tables;
      assert after.conflicts == if Frozen(t, p.id)
        then RecordConflict(t, p.id, LocallyModified, p.mapped.imported.displayName).conflicts else t.conflicts;
    }
  }

  ghost predicate Recorded(before: map<ConflictKey, string>, after: map<ConflictKey, string>, now: Run, p: Post) {
    && (forall key :: key in after <==> key in before || (key.sourceId == p.id && RowFlags(now, p, key.kind)))
    && (forall key :: key in before ==> key in after && after[key] == before[key])
  }

  ghost predicate Flagged(s: Run, posts: seq<Post>, key: ConflictKey) {
    exists p :: p in posts && p.id == key.sourceId && Flags(s, posts, p, key.kind)
  }

  ghost predicate ConflictsRecorded(s: Run, posts: seq<Post>, conflicts: map<ConflictKey, string>) {
    && (forall key :: key in conflicts <==> key in s.tables.conflicts || Flagged(s, posts, key))
    && (forall key :: key in s.tables.conflicts ==> key in conflicts && conflicts[key] == s.tables.conflicts[key])
  }

  lemma {:induction false} FlaggedStep(s: Run, posts: seq<Post>, now: Run, key: ConflictKey)
    requires posts != []
    requires DictionaryIs(s, posts[..|posts| - 1], now.owner)
    requires now.tables.deleted == s.tables.deleted
    requires forall id :: Frozen(now.tables, id) == Frozen(s.tables, id)
    ensures var p := posts[|posts| - 1];
      Flagged(s, posts, key) <==>
      Flagged(s, posts[..|posts| - 1], key) || (key.sourceId == p.id && RowFlags(now, p, key.kind))
  {
    var init, p := posts[..|posts| - 1], posts[|posts| - 1];
    SameSuppression(s.tables, now.tables, p);
    assert posts == init + [p];
    forall q | q in init ensures Flags(s, posts, q, key.kind) == Flags(s, init, q, key.kind) {
      if Active(s.tables, q) {
        EarlierWinsStand(s, posts, q);
      }
    }
    if Active(s.tables, p) {
      LossIsFinal(s, posts, now);
    }
    assert Flags(s, posts, p, key.kind) == RowFlags(now, p, key.kind);
    if Flagged(s, posts, key) {
      var q :| q in posts && q.id == key.sourceId && Flags(s, posts, q, key.kind);
      assert q in init || q == p;
    }
    if Flagged(s, init, key) {
      var q :| q in init && q.id == key.sourceId && Flags(s, init, q, key.kind);
      assert q in posts && Flags(s, posts, q, key.kind);
    }
    assert p in posts;
  }

  /** Everything a pass over a prefix has done, in one place. */
  ghost predicate ClosedForm(s: Run, posts: seq<Post>, now: Run) {
    && Consistent(now)
    && Respects(s.tables, now.tables)
    && DictionaryIs(s, posts, now.owner)
    && RowsWritten(s, posts, now.tables.dt)
    && ConflictsRecorded(s, posts, now.tables.conflicts)
  }

  lemma {:induction false} ClosedFormStep(s: Run, posts: seq<Post>, now: Run)
    requires DistinctIds(posts) && posts != []
    requires ClosedForm(s, posts[..|posts| - 1], now)
    ensures ImportRow(now, posts[|posts| - 1]).Done?
    ensures ClosedForm(s, posts, ImportRow(now, posts[|posts| - 1]).run)
  {
    var p := posts[|posts| - 1];
    RowKeepsIndex(now, p);
    RowEffect(now, p);
    RowRespects(now, p);
    RespectsTransitive(s.tables, now.tables, ImportRow(now, p).run.tables);
    SameSuppression(s.tables, now.tables, p);
    FrozenSame(s.tables, now.tables);
    ClaimStep(s, posts, now.owner);
    RowStep(s, posts, now);
    RowConflicts(now, p);
    forall key {
      FlaggedStep(s, posts, now, key);
    }
  }

  lemma {:induction false} FrozenSame(t: Tables, t': Tables)
    requires Respects(t, t')
    ensures forall id :: Frozen(t', id) == Frozen(t, id)
  {
  }

  /** A pass equals its closed form: each email goes to the row that stored it when the pass
      began, else to its first claimant, whatever happened in between. */
  lemma {:induction false} PassClosedForm(s: Run, posts: seq<Post>)
    requires Consistent(s) && DistinctIds(posts)
    ensures ImportRows(s, posts).Done?
    ensures ClosedForm(s, posts, ImportRows(s, posts).run)
  {
    if posts != [] {
      PassClosedForm(s, posts[..|posts| - 1]);
      ClosedFormStep(s, posts, ImportRows(s, posts[..|posts| - 1]).run);
    }
  }
}
