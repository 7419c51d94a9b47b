/** Re-running the contacts import over a fixed source: two passes reach a fixpoint, and one pass
    does exactly when no email is handed out late. */
module ContactConvergence {
  import opened Options
  import opened ContactTables
  import opened ContactSafety
  import opened ContactPass

  /** An email released by one row of a pass and asked for, before anyone else, by a row that
      can be written: the first pass still refuses it, because its dictionary was loaded before
      the release. Both conditions can be read off the tables before the pass. */
  ghost predicate LateHandout(t: Tables, posts: seq<Post>, p: Post) {
    && Writes(t, p) && p.mapped.email.Some?
    && FirstClaimant(t, posts, p.mapped.email.value) == Some(p.id)
    && exists q :: q in posts && Releases(t, q, p.mapped.email.value)
  }

  predicate Releases(t: Tables, q: Post, e: Email) {
    Writes(t, q) && Holds(t, DtRow(q.id), e) && q.mapped.email != Some(e)
  }

  // ---------------------------------------------------------------- who holds what after a pass

  lemma {:induction false} PassIsClosedForm(t: Tables, posts: seq<Post>)
    requires WellFormed(t) && DistinctIds(posts)
    ensures exists now: Run :: now.tables == Pass(t, posts) && ClosedForm(Start(t), posts, now)
  {
    StartIsConsistent(t);
    PassClosedForm(Start(t), posts);
  }

  lemma {:induction false} FirstClaimantIs(t1: Tables, t2: Tables, posts: seq<Post>, e: Email)
    requires t1.deleted == t2.deleted
    ensures FirstClaimant(t1, posts, e) == FirstClaimant(t2, posts, e)
    ensures FirstClaimant(t1, posts, e).Some? ==>
      exists p :: p in posts && Claims(t1, p, e) && p.id == FirstClaimant(t1, posts, e).value
  {
    if posts != [] {
      FirstClaimantIs(t1, t2, posts[..|posts| - 1], e);
      SameSuppression(t1, t2, posts[|posts| - 1]);
      assert posts[|posts| - 1] in posts;
    }
  }

  ghost predicate WrittenRef(t: Tables, posts: seq<Post>, r: RowRef) {
    r.DtRow? && exists p :: p in posts && Writes(t, p) && p.id == r.id
  }

  /** A row the pass does not write keeps its email. */
  lemma {:induction false} UnwrittenHolds(t: Tables, posts: seq<Post>, r: RowRef, e: Email)
    requires WellFormed(t) && DistinctIds(posts) && !WrittenRef(t, posts, r)
    ensures Holds(Pass(t, posts), r, e) == Holds(t, r, e)
  {
    PassIsClosedForm(t, posts);
    var now: Run :| now.tables == Pass(t, posts) && ClosedForm(Start(t), posts, now);
    if r.DtRow? {
      assert forall p :: p in posts && Writes(t, p) ==> p.id != r.id;
      UnwrittenSoFar(Start(t), posts, now.tables.dt, r.id);
    }
  }

  /** A row it writes holds exactly what it won. */
  lemma {:induction false} WrittenHolds(t: Tables, posts: seq<Post>, p: Post)
    requires WellFormed(t) && DistinctIds(posts) && p in posts && Writes(t, p)
    ensures p.id in Pass(t, posts).dt && Pass(t, posts).dt[p.id] == FinalRow(Start(t), posts, p)
    ensures forall e :: Holds(Pass(t, posts), DtRow(p.id), e) == (Wins(Start(t), posts, p) && p.mapped.email == Some(e))
  {
    PassIsClosedForm(t, posts);
  }

  lemma {:induction false} SameId(posts: seq<Post>, p: Post, q: Post)
    requires DistinctIds(posts) && p in posts && q in posts && p.id == q.id
    ensures p == q
  {
  }

  /** An email is stored after the pass by the row that stored it before, or by its winner. */
  lemma {:induction false} OnlyTheWinnerStores(t: Tables, posts: seq<Post>, r: RowRef, e: Email)
    requires WellFormed(t) && DistinctIds(posts)
    requires Holds(Pass(t, posts), r, e) && !Holds(t, r, e)
    ensures r.DtRow? && !Frozen(t, r.id) && Winner(Start(t), posts, e) == Some(DtKey(r.id))
    ensures exists p :: p in posts && Writes(t, p) && p.id == r.id && p.mapped.email == Some(e)
  {
    if !WrittenRef(t, posts, r) {
      UnwrittenHolds(t, posts, r, e);
    } else {
      var p :| p in posts && Writes(t, p) && p.id == r.id;
      WrittenHolds(t, posts, p);
    }
  }

  /** A claim that is won once is won again, even by a frozen row that never stores the email. */
  lemma {:induction false} KeepsWinning(t: Tables, posts: seq<Post>, p: Post)
    requires WellFormed(t) && DistinctIds(posts)
    requires p in posts && Active(t, p) && Wins(Start(t), posts, p)
    ensures Wins(Start(Pass(t, posts)), posts, p)
  {
    var e := p.mapped.email.value;
    if Writes(t, p) {
      WrittenHolds(t, posts, p);
      assert Holds(Pass(t, posts), DtRow(p.id), e);
    } else if Holds(t, DtRow(p.id), e) {
      UnwrittenHolds(t, posts, DtRow(p.id), e);
      assert Holds(Pass(t, posts), DtRow(p.id), e);
    } else {
      PhantomStaysFree(t, posts, p);
      PassRespects(t, posts);
      FirstClaimantIs(t, Pass(t, posts), posts, e);
    }
  }

  /** The email of a phantom claim, won by a frozen row that does not store it. */
  lemma {:induction false} PhantomStaysFree(t: Tables, posts: seq<Post>, p: Post)
    requires WellFormed(t) && DistinctIds(posts)
    requires p in posts && Frozen(t, p.id) && Wins(Start(t), posts, p) && !Holds(t, DtRow(p.id), p.mapped.email.value)
    ensures p.mapped.email.value !in EmailOwners(t) && p.mapped.email.value !in EmailOwners(Pass(t, posts))
  {
    var e, r := p.mapped.email.value, Pass(t, posts);
    StoredByItsOwner(t, e);
    forall row ensures !Holds(r, row, e) {
      if Holds(r, row, e) {
        OnlyTheWinnerStores(t, posts, row, e);
      }
    }
  }

  lemma {:induction false} OwnerHolds(t: Tables, owner: map<Email, Key>, e: Email, id: SourceId)
    requires forall n, id' :: n in t.others ==> t.others[n].key != DtKey(id')
    requires e in owner && owner[e] == DtKey(id) && exists r :: Holds(t, r, e) && owner[e] == KeyOf(t, r)
    ensures Holds(t, DtRow(id), e)
  {
  }

  lemma {:induction false} StoredByItsOwner(t: Tables, e: Email)
    requires WellFormed(t)
    ensures forall id :: e in EmailOwners(t) && EmailOwners(t)[e] == DtKey(id) ==> Holds(t, DtRow(id), e)
  {
    var owner := EmailOwners(t);
    if e in owner {
      var r :| Holds(t, r, e);
      forall id | owner[e] == DtKey(id) ensures Holds(t, DtRow(id), e) {
        OwnerHolds(t, owner, e, id);
      }
    }
  }

  /** A row that keeps its email through the pass wins it again. */
  lemma {:induction false} HolderStays(t: Tables, posts: seq<Post>, h: RowRef, e: Email)
    requires WellFormed(t) && DistinctIds(posts) && Holds(t, h, e)
    ensures Holds(Pass(t, posts), h, e) || exists q :: q in posts && h == DtRow(q.id) && Releases(t, q, e)
  {
    if !WrittenRef(t, posts, h) {
      UnwrittenHolds(t, posts, h, e);
    } else {
      var q :| q in posts && Writes(t, q) && q.id == h.id;
      WrittenHolds(t, posts, q);
      assert EmailOwners(t)[e] == DtKey(q.id);
      assert q.mapped.email == Some(e) ==> Wins(Start(t), posts, q);
    }
  }

  /** A row that stores an email after the pass was allowed to by the holder before it. */
  lemma {:induction false} ReleasedEmailIsFree(t: Tables, posts: seq<Post>, q: Post, e: Email)
    requires WellFormed(t) && DistinctIds(posts) && q in posts && Releases(t, q, e)
    ensures e !in EmailOwners(Pass(t, posts))
  {
    var r := Pass(t, posts);
    WrittenHolds(t, posts, q);
    assert EmailOwners(t)[e] == DtKey(q.id);
    forall row ensures !Holds(r, row, e) {
      if Holds(r, row, e) && row != DtRow(q.id) {
        if Holds(t, row, e) {
          OneHolder(t, row, DtRow(q.id), e);
        } else {
          OnlyTheWinnerStores(t, posts, row, e);
        }
      }
    }
  }

  /** A claim lost in one pass and won in the next was freed in between. */
  lemma {:induction false} NewWinIsALateHandout(t: Tables, posts: seq<Post>, p: Post)
    requires WellFormed(t) && DistinctIds(posts)
    requires p in posts && Active(t, p) && p.mapped.email.Some?
    requires !Wins(Start(t), posts, p) && Wins(Start(Pass(t, posts)), posts, p)
    ensures FirstClaimant(t, posts, p.mapped.email.value) == Some(p.id)
    ensures exists q :: q in posts && Releases(t, q, p.mapped.email.value)
  {
    var e := p.mapped.email.value;
    if e in EmailOwners(t) {
      OnlyAReleaseFrees(t, posts, p);
      var q :| q in posts && Releases(t, q, e);
      ReleasedEmailIsFree(t, posts, q, e);
      PassRespects(t, posts);
      FirstClaimantIs(t, Pass(t, posts), posts, e);
    } else {
      ClaimantExists(t, posts, p);
      FirstClaimantIs(t, t, posts, e);
      var c :| c in posts && Claims(t, c, e) && c.id == FirstClaimant(t, posts, e).value;
      KeepsWinning(t, posts, c);
    }
  }

  lemma {:induction false} OnlyAReleaseFrees(t: Tables, posts: seq<Post>, p: Post)
    requires WellFormed(t) && DistinctIds(posts)
    requires p in posts && Active(t, p) && p.mapped.email.Some? && p.mapped.email.value in EmailOwners(t)
    requires !Wins(Start(t), posts, p) && Wins(Start(Pass(t, posts)), posts, p)
    ensures exists q :: q in posts && Releases(t, q, p.mapped.email.value)
  {
    var e := p.mapped.email.value;
    var h :| Holds(t, h, e);
    HolderStays(t, posts, h, e);
    PassRespects(t, posts);
  }

  // ---------------------------------------------------------------- the fixpoint

  lemma {:induction false} FlagRepeats(t: Tables, posts: seq<Post>, p: Post, kind: ConflictKind)
    requires WellFormed(t) && DistinctIds(posts) && p in posts
    requires Flags(Start(Pass(t, posts)), posts, p, kind)
    ensures Flags(Start(t), posts, p, kind)
  {
    PassRespects(t, posts);
    FrozenSame(t, Pass(t, posts));
    SameSuppression(t, Pass(t, posts), p);
    if Active(t, p) && Wins(Start(t), posts, p) {
      KeepsWinning(t, posts, p);
    }
  }

  lemma {:induction false} NothingToRecord(s: Run, posts: seq<Post>, after: map<ConflictKey, string>)
    requires ConflictsRecorded(s, posts, after)
    requires forall key :: Flagged(s, posts, key) ==> key in s.tables.conflicts
    ensures after == s.tables.conflicts
  {
  }

  lemma {:induction false} EveryFlagIsRecorded(t: Tables, posts: seq<Post>, p: Post, kind: ConflictKind)
    requires WellFormed(t) && DistinctIds(posts) && p in posts && Flags(Start(t), posts, p, kind)
    ensures ConflictKey(p.id, kind) in Pass(t, posts).conflicts
  {
    PassIsClosedForm(t, posts);
    assert Flagged(Start(t), posts, ConflictKey(p.id, kind));
  }

  /** A second pass detects no conflict that the first did not. */
  lemma {:induction false} NoNewConflicts(t: Tables, posts: seq<Post>)
    requires WellFormed(t) && DistinctIds(posts)
    ensures Pass(Pass(t, posts), posts).conflicts == Pass(t, posts).conflicts
  {
    var r := Pass(t, posts);
    forall key | Flagged(Start(r), posts, key) ensures key in r.conflicts {
      var p :| p in posts && p.id == key.sourceId && Flags(Start(r), posts, p, key.kind);
      FlagRepeats(t, posts, p, key.kind);
      EveryFlagIsRecorded(t, posts, p, key.kind);
    }
    PassIsClosedForm(r, posts);
    var now: Run :| now.tables == Pass(r, posts) && ClosedForm(Start(r), posts, now);
    NothingToRecord(Start(r), posts, now.tables.conflicts);
  }

  /** One pass is idempotent exactly when it hands out no email late. */
  lemma {:induction false} OnePassIff(t: Tables, posts: seq<Post>)
    requires WellFormed(t) && DistinctIds(posts)
    ensures Pass(Pass(t, posts), posts) == Pass(t, posts) <==> forall p :: p in posts ==> !LateHandout(t, posts, p)
  {
    var r := Pass(t, posts);
    if p :| p in posts && LateHandout(t, posts, p) {
      LateHandoutChanges(t, posts, p);
    } else {
      NoNewConflicts(t, posts);
      SameRows(t, posts);
      PassRespects(t, posts);
      PassRespects(r, posts);
    }
  }

  lemma {:induction false} LateHandoutChanges(t: Tables, posts: seq<Post>, p: Post)
    requires WellFormed(t) && DistinctIds(posts) && p in posts && LateHandout(t, posts, p)
    ensures p.id in Pass(t, posts).dt && Pass(t, posts).dt[p.id].email == None
    ensures p.id in Pass(Pass(t, posts), posts).dt
    ensures Pass(Pass(t, posts), posts).dt[p.id].email == p.mapped.email
  {
    var r, e := Pass(t, posts), p.mapped.email.value;
    var q :| q in posts && Releases(t, q, e);
    ReleasedEmailIsFree(t, posts, q, e);
    PassRespects(t, posts);
    FirstClaimantIs(t, r, posts, e);
    WrittenHolds(t, posts, p);
    StillWrites(t, posts, p);
    WrittenHolds(r, posts, p);
    assert EmailOwners(t)[e] == DtKey(q.id);
    if q.id == p.id {
      SameId(posts, p, q);
    }
  }

  lemma {:induction false} StillWrites(t: Tables, posts: seq<Post>, p: Post)
    requires WellFormed(t) && DistinctIds(posts)
    ensures Writes(Pass(t, posts), p) == Writes(t, p)
  {
    PassRespects(t, posts);
    SameSuppression(t, Pass(t, posts), p);
    FrozenSame(t, Pass(t, posts));
  }

  /** Merging the same columns a second time changes nothing. */
  lemma {:induction false} MergingIsIdempotent(stored: Option<Profile>, mapped: Option<Profile>)
    ensures MergedProfile(MergedProfile(stored, mapped), mapped) == MergedProfile(stored, mapped)
  {
    if mapped.Some? {
      assert mapped.value + mapped.value == mapped.value;
      if stored.Some? {
        assert stored.value + mapped.value + mapped.value == stored.value + mapped.value;
      }
    }
  }

  lemma {:induction false} SameRows(t: Tables, posts: seq<Post>)
    requires WellFormed(t) && DistinctIds(posts)
    requires forall p :: p in posts ==> !LateHandout(t, posts, p)
    ensures Pass(Pass(t, posts), posts).dt == Pass(t, posts).dt
  {
    var r := Pass(t, posts);
    forall p | p in posts && Writes(r, p) ensures p.id in r.dt && FinalRow(Start(r), posts, p) == r.dt[p.id] {
      StillWrites(t, posts, p);
      WrittenHolds(t, posts, p);
      SameWin(t, posts, p);
      MergingIsIdempotent(if p.id in t.dt then t.dt[p.id].profile else None, p.mapped.profile);
    }
    PassIsClosedForm(r, posts);
    var now: Run :| now.tables == Pass(r, posts) && ClosedForm(Start(r), posts, now);
    NothingToWrite(Start(r), posts, now.tables.dt);
  }

  lemma {:induction false} NothingToWrite(s: Run, posts: seq<Post>, after: map<SourceId, Contact>)
    requires RowsWritten(s, posts, after)
    requires forall p :: p in posts && Writes(s.tables, p) ==> p.id in s.tables.dt && FinalRow(s, posts, p) == s.tables.dt[p.id]
    ensures after == s.tables.dt
  {
  }

  lemma {:induction false} SameWin(t: Tables, posts: seq<Post>, p: Post)
    requires WellFormed(t) && DistinctIds(posts) && p in posts && Writes(t, p)
    requires !LateHandout(t, posts, p)
    ensures Wins(Start(Pass(t, posts)), posts, p) == Wins(Start(t), posts, p)
  {
    if Wins(Start(t), posts, p) {
      KeepsWinning(t, posts, p);
    } else if Wins(Start(Pass(t, posts)), posts, p) {
      NewWinIsALateHandout(t, posts, p);
    }
  }

  /** After a pass no written row holds an email its post does not ask for, so nothing is left to
      be released. */
  lemma {:induction false} NothingLeftToRelease(t: Tables, posts: seq<Post>, p: Post)
    requires WellFormed(t) && DistinctIds(posts) && p in posts
    ensures !LateHandout(Pass(t, posts), posts, p)
  {
    var r := Pass(t, posts);
    if p.mapped.Mapped? && p.mapped.email.Some? {
      forall q | q in posts ensures !Releases(r, q, p.mapped.email.value) {
        StillWrites(t, posts, q);
        if Writes(t, q) {
          WrittenHolds(t, posts, q);
        }
      }
    }
  }

  /** Two-pass convergence: a third pass changes nothing. */
  lemma {:induction false} ThirdPassChangesNothing(t: Tables, posts: seq<Post>)
    requires WellFormed(t) && DistinctIds(posts)
    ensures Pass(Pass(Pass(t, posts), posts), posts) == Pass(Pass(t, posts), posts)
  {
    var r := Pass(t, posts);
    forall p | p in posts ensures !LateHandout(r, posts, p) {
      NothingLeftToRelease(t, posts, p);
    }
    OnePassIff(r, posts);
  }

  /** The tables before and after each pass of a series of passes over one source. */
  ghost predicate IsSeries(series: seq<Tables>, posts: seq<Post>) {
    && (forall i :: 0 <= i < |series| ==> WellFormed(series[i]))
    && (forall i :: 0 < i < |series| ==> series[i] == Pass(series[i - 1], posts))
  }

  /** Two-pass convergence, for every series: from the second pass on, contacts, profiles and
      recorded conflicts no longer change. */
  lemma {:induction false} TwoPassesConverge(series: seq<Tables>, posts: seq<Post>, n: nat)
    requires IsSeries(series, posts) && DistinctIds(posts) && 2 <= n < |series|
    ensures series[n] == series[2]
  {
    if n > 2 {
      TwoPassesConverge(series, posts, n - 1);
      ThirdPassChangesNothing(series[0], posts);
      assert series[1] == Pass(series[0], posts) && series[2] == Pass(series[1], posts);
      assert series[n] == Pass(series[n - 1], posts);
    }
  }

  const FIELDS := Imported("adopter", "A", None, None, None, None)
  const GIVES_UP := Post("2", Mapped(None, FIELDS, 0, None))
  const ASKS := Post("1", Mapped(Some("a@x"), FIELDS, 0, None))
  const HOLDING := Tables(map["2" := Contact(Some("a@x"), FIELDS, 0, false, None)], map[], {}, map[])

  /** One pass is not enough: contact 2 stores an email it gives up, contact 1 asks for it first
      and gets it only in the second pass. */
  lemma {:induction false} OnePassIsNotEnough()
    ensures WellFormed(HOLDING) && DistinctIds([ASKS, GIVES_UP])
    ensures Pass(Pass(HOLDING, [ASKS, GIVES_UP]), [ASKS, GIVES_UP]) != Pass(HOLDING, [ASKS, GIVES_UP])
  {
    var posts := [ASKS, GIVES_UP];
    assert posts[0] in posts && posts[1] in posts && posts[0].id != posts[1].id;
    LateHandoutExample(posts);
    OnePassIff(HOLDING, posts);
  }

  lemma {:induction false} LateHandoutExample(posts: seq<Post>)
    requires posts == [ASKS, GIVES_UP]
    ensures LateHandout(HOLDING, posts, ASKS)
  {
    assert posts[..1] == [ASKS] && [ASKS][..0] == [];
    assert FirstClaimant(HOLDING, [ASKS], "a@x") == Some("1");
    assert posts[1] in posts && Releases(HOLDING, GIVES_UP, "a@x");
  }

  // ---------------------------------------------------------------- profile columns

  predicate HasColumn(profile: Option<Profile>, column: string) {
    profile.Some? && column in profile.value
  }

  function ColumnOf(profile: Option<Profile>, column: string): Option<string>
    requires HasColumn(profile, column)
  {
    profile.value[column]
  }

  lemma {:induction false} MergedColumn(stored: Option<Profile>, mapped: Option<Profile>, column: string)
    ensures HasColumn(MergedProfile(stored, mapped), column) <==> HasColumn(stored, column) || HasColumn(mapped, column)
    ensures HasColumn(mapped, column) ==> ColumnOf(MergedProfile(stored, mapped), column) == ColumnOf(mapped, column)
    ensures HasColumn(stored, column) && !HasColumn(mapped, column)
      ==> ColumnOf(MergedProfile(stored, mapped), column) == ColumnOf(stored, column)
  {
  }

  /** What a pass does to a stored profile column: a post that writes the contact and maps the column
      decides it, and only such a post; a column that no post maps any more keeps its old value. */
  lemma {:induction false} ProfileColumnsAreKept(t: Tables, posts: seq<Post>, id: SourceId, column: string)
    requires WellFormed(t) && DistinctIds(posts) && id in t.dt && HasColumn(t.dt[id].profile, column)
    ensures id in Pass(t, posts).dt && HasColumn(Pass(t, posts).dt[id].profile, column)
    ensures forall p :: p in posts && p.id == id && Writes(t, p) && HasColumn(p.mapped.profile, column)
              ==> ColumnOf(Pass(t, posts).dt[id].profile, column) == ColumnOf(p.mapped.profile, column)
    ensures (forall p :: p in posts && p.id == id && Writes(t, p) ==> !HasColumn(p.mapped.profile, column))
              ==> ColumnOf(Pass(t, posts).dt[id].profile, column) == ColumnOf(t.dt[id].profile, column)
  {
    PassIsClosedForm(t, posts);
    var now: Run :| now.tables == Pass(t, posts) && ClosedForm(Start(t), posts, now);
    if p :| p in posts && p.id == id && Writes(t, p) {
      assert Pass(t, posts).dt[id] == FinalRow(Start(t), posts, p);
      MergedColumn(t.dt[id].profile, p.mapped.profile, column);
      forall q | q in posts && q.id == id ensures q == p {
        SameId(posts, p, q);
      }
    } else {
      UnwrittenSoFar(Start(t), posts, now.tables.dt, id);
    }
  }
}
