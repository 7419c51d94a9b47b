/** What a pass leaves behind for each post and each stored row, read off the starting tables and the posts
    alone. */
module ContactOutcome {
  import opened Options
  import opened ContactTables
  import opened ContactSafety
  import opened ContactPass
  import opened ContactConvergence

  /** A core-side hard delete of this source id, or of this email, is on record. */
  predicate Suppresses(t: Tables, p: Post) {
    exists d :: d in t.deleted && (d.key == Key(Some("dt"), Some(p.id))
                                   || (p.mapped.Mapped? && p.mapped.email.Some? && d.email == p.mapped.email))
  }

  predicate EditedLocally(t: Tables, id: SourceId) {
    id in t.dt && t.dt[id].locallyModified
  }

  /** A post that can be mapped, with no hard delete on record for it, whose contact nobody edited. */
  predicate GoesThrough(t: Tables, p: Post) {
    p.mapped.Mapped? && !Suppresses(t, p) && !EditedLocally(t, p.id)
  }

  /** The row of a contact after its post was written through: every mapped column is the post's; the creation
      date of a known contact stays, and a new one takes date and profile from the post. */
  ghost predicate Refreshed(before: map<SourceId, Contact>, after: map<SourceId, Contact>, p: Post)
    requires p.mapped.Mapped?
  {
    && p.id in after
    && after[p.id].imported == p.mapped.imported
    && !after[p.id].locallyModified
    && (after[p.id].email.Some? ==> after[p.id].email == p.mapped.email)
    && (p.id in before ==> after[p.id].createdAt == before[p.id].createdAt)
    && (p.id !in before ==> after[p.id].createdAt == p.mapped.createdAt && after[p.id].profile == p.mapped.profile)
  }

  /** The rows after one post. */
  ghost predicate RowLeft(t: Tables, dt': map<SourceId, Contact>, p: Post) {
    if GoesThrough(t, p) then Refreshed(t.dt, dt', p) && dt' - {p.id} == t.dt - {p.id} else dt' == t.dt
  }

  lemma {:induction false} ActiveMeans(t: Tables, p: Post)
    ensures Active(t, p) <==> p.mapped.Mapped? && !Suppresses(t, p)
    ensures Writes(t, p) <==> GoesThrough(t, p)
  {
    assert DtKey(p.id) == Key(Some("dt"), Some(p.id));
  }

  /** One row of the loop refreshes exactly the contact of a mapped post that is not suppressed and that nobody
      edited. */
  lemma {:induction false} RowIsRefreshed(s: Run, p: Post)
    requires Consistent(s)
    ensures ImportRow(s, p).Done?
    ensures RowLeft(s.tables, ImportRow(s, p).run.tables.dt, p)
  {
    ActiveMeans(s.tables, p);
    RowEffect(s, p);
  }

  /** And so does a whole pass, for each of its posts. */
  lemma {:induction false} WrittenRowsAreRefreshed(t: Tables, posts: seq<Post>, p: Post)
    requires WellFormed(t) && DistinctIds(posts) && p in posts && GoesThrough(t, p)
    ensures Refreshed(t.dt, Pass(t, posts).dt, p)
  {
    ActiveMeans(t, p);
    WrittenHolds(t, posts, p);
  }

  /** Every other row is as it was, and no row appears without its post. */
  lemma {:induction false} OtherRowsAreLeft(t: Tables, posts: seq<Post>, id: SourceId)
    requires WellFormed(t) && DistinctIds(posts)
    requires forall p :: p in posts && p.id == id ==> !GoesThrough(t, p)
    ensures id in Pass(t, posts).dt <==> id in t.dt
    ensures id in t.dt ==> Pass(t, posts).dt[id] == t.dt[id]
  {
    PassIsClosedForm(t, posts);
    var now: Run :| now.tables == Pass(t, posts) && ClosedForm(Start(t), posts, now);
    forall p | p in posts && Writes(t, p) ensures p.id != id {
      ActiveMeans(t, p);
    }
    UnwrittenSoFar(Start(t), posts, now.tables.dt, id);
  }

  // ---------------------------------------------------------------- who gets an email

  predicate Asks(t: Tables, p: Post, e: Email) {
    p.mapped.Mapped? && p.mapped.email == Some(e) && !Suppresses(t, p)
  }

  /** The k-th post is entitled to an email: its contact stored it when the pass began, or nobody did and no
      earlier post asked for it. */
  ghost predicate Entitled(t: Tables, posts: seq<Post>, k: nat, e: Email)
    requires k < |posts|
  {
    if exists r :: Holds(t, r, e) then posts[k].id in t.dt && t.dt[posts[k].id].email == Some(e)
    else forall j :: 0 <= j < k ==> !Asks(t, posts[j], e)
  }

  lemma {:induction false} NobodyAsked(t: Tables, posts: seq<Post>, e: Email)
    ensures FirstClaimant(t, posts, e).None? <==> forall p :: p in posts ==> !Claims(t, p, e)
  {
    if posts != [] {
      var init := posts[..|posts| - 1];
      assert posts == init + [posts[|posts| - 1]];
      NobodyAsked(t, init, e);
    }
  }

  lemma {:induction false} FirstToAsk(t: Tables, posts: seq<Post>, k: nat, e: Email)
    requires DistinctIds(posts) && k < |posts| && Claims(t, posts[k], e)
    ensures FirstClaimant(t, posts, e) == Some(posts[k].id) <==> forall j :: 0 <= j < k ==> !Claims(t, posts[j], e)
  {
    var init := posts[..|posts| - 1];
    NobodyAsked(t, init, e);
    if k < |posts| - 1 {
      assert init[k] in init;
      FirstToAsk(t, init, k, e);
    } else {
      FirstClaimantIs(t, t, init, e);
      assert forall j :: 0 <= j < k ==> posts[j] in init;
      assert forall p :: p in init ==> p.id != posts[k].id;
    }
  }

  lemma {:induction false} WinsMeans(t: Tables, posts: seq<Post>, k: nat)
    requires WellFormed(t) && DistinctIds(posts) && k < |posts| && Active(t, posts[k]) && posts[k].mapped.email.Some?
    ensures Wins(Start(t), posts, posts[k]) <==> Entitled(t, posts, k, posts[k].mapped.email.value)
  {
    var p, e := posts[k], posts[k].mapped.email.value;
    assert Holds(t, DtRow(p.id), e) <==> p.id in t.dt && t.dt[p.id].email == Some(e);
    if exists r :: Holds(t, r, e) {
      StoredByItsOwner(t, e);
    } else {
      FirstToAsk(t, posts, k, e);
      forall j | 0 <= j < k ensures Asks(t, posts[j], e) == Claims(t, posts[j], e) {
        ActiveMeans(t, posts[j]);
      }
    }
  }

  /** A written row stores the email its post asks for exactly when the post is entitled to it, and none
      otherwise; one refused is reported. */
  lemma {:induction false} EmailGoesToTheEntitled(t: Tables, posts: seq<Post>, k: nat)
    requires WellFormed(t) && DistinctIds(posts) && k < |posts|
    requires posts[k].mapped.Mapped? && !Suppresses(t, posts[k])
    ensures GoesThrough(t, posts[k]) ==>
      && posts[k].id in Pass(t, posts).dt
      && Pass(t, posts).dt[posts[k].id].email ==
           (if posts[k].mapped.email.Some? && Entitled(t, posts, k, posts[k].mapped.email.value)
            then posts[k].mapped.email else None)
    ensures posts[k].mapped.email.Some? && !Entitled(t, posts, k, posts[k].mapped.email.value) ==>
      ConflictKey(posts[k].id, DuplicateEmail) in Pass(t, posts).conflicts
  {
    ActiveMeans(t, posts[k]);
    assert posts[k] in posts;
    if posts[k].mapped.email.Some? {
      WinsMeans(t, posts, k);
      if !Wins(Start(t), posts, posts[k]) {
        EveryFlagIsRecorded(t, posts, posts[k], DuplicateEmail);
      }
    }
    if Writes(t, posts[k]) {
      WrittenHolds(t, posts, posts[k]);
    }
  }

  // ---------------------------------------------------------------- what the conflicts say

  /** Why a pass records a conflict, and the value it stores with it. */
  ghost predicate Explains(t: Tables, posts: seq<Post>, k: nat, kind: ConflictKind, value: string)
    requires k < |posts|
  {
    var p := posts[k];
    match kind
    case UnmappedStatus(party) =>
      && (forall d :: d in t.deleted ==> d.key != Key(Some("dt"), Some(p.id)))
      && p.mapped == Unmapped(party, value)
    case DuplicateEmail => Asks(t, p, value) && !Entitled(t, posts, k, value)
    case LocallyModified => p.mapped.Mapped? && !Suppresses(t, p) && EditedLocally(t, p.id) && p.mapped.imported.displayName == value
  }

  ghost predicate ValueFits(p: Post, kind: ConflictKind, value: string) {
    match kind
    case UnmappedStatus(party) => p.mapped == Unmapped(party, value)
    case DuplicateEmail => p.mapped.Mapped? && p.mapped.email == Some(value)
    case LocallyModified => p.mapped.Mapped? && p.mapped.imported.displayName == value
  }

  ghost predicate ValuesFit(before: map<ConflictKey, string>, after: map<ConflictKey, string>, posts: seq<Post>) {
    forall key :: key in after && key !in before ==>
      exists p :: p in posts && p.id == key.sourceId && ValueFits(p, key.kind, after[key])
  }

  lemma {:induction false} RowValuesFit(s: Run, p: Post)
    requires Consistent(s)
    ensures ImportRow(s, p).Done?
    ensures forall key :: key in ImportRow(s, p).run.tables.conflicts && key !in s.tables.conflicts ==>
      key.sourceId == p.id && ValueFits(p, key.kind, ImportRow(s, p).run.tables.conflicts[key])
  {
    RowKeepsIndex(s, p);
    if Active(s.tables, p) {
      var t := if Loses(s.owner, p) then RecordConflict(s.tables, p.id, DuplicateEmail, p.mapped.email.value) else s.tables;
      assert ImportRow(s, p).run.tables.conflicts == if Frozen(t, p.id)
        then RecordConflict(t, p.id, LocallyModified, p.mapped.imported.displayName).conflicts else t.conflicts;
    }
  }

  lemma {:induction false} ImportValuesFit(s: Run, posts: seq<Post>)
    requires Consistent(s)
    ensures ImportRows(s, posts).Done?
    ensures ValuesFit(s.tables.conflicts, ImportRows(s, posts).run.tables.conflicts, posts)
  {
    ImportIsSafe(s, posts);
    if posts != [] {
      var init, p := posts[..|posts| - 1], posts[|posts| - 1];
      assert posts == init + [p];
      ImportValuesFit(s, init);
      ImportIsSafe(s, init);
      var now := ImportRows(s, init).run;
      RowConflicts(now, p);
      RowValuesFit(now, p);
      assert p in posts;
    }
  }

  /** A new conflict names its post and says why the post was refused, with the value it was refused for. */
  lemma {:induction false} NewConflictsTell(t: Tables, posts: seq<Post>, key: ConflictKey)
    requires WellFormed(t) && DistinctIds(posts)
    requires key in Pass(t, posts).conflicts && key !in t.conflicts
    ensures exists k :: 0 <= k < |posts| && posts[k].id == key.sourceId
                        && Explains(t, posts, k, key.kind, Pass(t, posts).conflicts[key])
  {
    PassIsClosedForm(t, posts);
    var p :| p in posts && p.id == key.sourceId && Flags(Start(t), posts, p, key.kind);
    StartIsConsistent(t);
    ImportValuesFit(Start(t), posts);
    var q :| q in posts && q.id == key.sourceId && ValueFits(q, key.kind, Pass(t, posts).conflicts[key]);
    SameId(posts, p, q);
    ActiveMeans(t, p);
    var k :| 0 <= k < |posts| && posts[k] == p;
    if key.kind == DuplicateEmail {
      WinsMeans(t, posts, k);
    }
    assert Explains(t, posts, k, key.kind, Pass(t, posts).conflicts[key]);
  }

  /** And every reason is recorded. */
  lemma {:induction false} EveryReasonIsRecorded(t: Tables, posts: seq<Post>, k: nat, kind: ConflictKind, value: string)
    requires WellFormed(t) && DistinctIds(posts) && k < |posts| && Explains(t, posts, k, kind, value)
    ensures ConflictKey(posts[k].id, kind) in Pass(t, posts).conflicts
  {
    ActiveMeans(t, posts[k]);
    assert posts[k] in posts;
    if kind == DuplicateEmail {
      WinsMeans(t, posts, k);
    }
    EveryFlagIsRecorded(t, posts, posts[k], kind);
  }

  // ---------------------------------------------------------------- profile columns

  /** After a pass a contact has exactly the profile columns it had and the ones its post maps. */
  lemma {:induction false} ProfileColumnsAreTheUnion(t: Tables, posts: seq<Post>, p: Post, column: string)
    requires WellFormed(t) && DistinctIds(posts) && p in posts && GoesThrough(t, p)
    ensures p.id in Pass(t, posts).dt
    ensures HasColumn(Pass(t, posts).dt[p.id].profile, column) <==>
              (p.id in t.dt && HasColumn(t.dt[p.id].profile, column)) || HasColumn(p.mapped.profile, column)
    ensures HasColumn(p.mapped.profile, column) ==>
              ColumnOf(Pass(t, posts).dt[p.id].profile, column) == p.mapped.profile.value[column]
  {
    ActiveMeans(t, p);
    WrittenHolds(t, posts, p);
    if p.id in t.dt {
      MergedColumn(t.dt[p.id].profile, p.mapped.profile, column);
    }
  }
}
