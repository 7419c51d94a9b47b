/** What every row of a contacts import keeps: the unique email index and the agreement of the
    in-memory email_owner dictionary with it, the locally edited rows, and the suppression list. */
module ContactSafety {
  import opened Options
  import opened ContactTables

  /** The dictionary knows the owner of every stored email. It may know more: a locally modified
      row claims an email that is never written for it. */
  ghost predicate Consistent(s: Run) {
    && WellFormed(s.tables)
    && forall e, r :: Holds(s.tables, r, e) ==> e in s.owner && s.owner[e] == KeyOf(s.tables, r)
  }

  lemma {:induction false} StartIsConsistent(t: Tables)
    requires WellFormed(t)
    ensures Consistent(Start(t))
  {
  }

  /** A row that won its claim cannot collide with a stored email. */
  lemma {:induction false} WinnerIsFree(s: Run, p: Post)
    requires Consistent(s) && p.mapped.Mapped? && p.mapped.email.Some? && !Loses(s.owner, p)
    ensures forall r :: Holds(s.tables, r, p.mapped.email.value) ==> r == DtRow(p.id)
    ensures !HeldElsewhere(s.tables, p.id, p.mapped.email.value)
  {
    var e := p.mapped.email.value;
    forall r | Holds(s.tables, r, e) ensures r == DtRow(p.id) {
      assert s.owner[e] == KeyOf(s.tables, r) == DtKey(p.id);
    }
    if other :| other in s.tables.dt && other != p.id && s.tables.dt[other].email == Some(e) {
      assert Holds(s.tables, DtRow(other), e);
    }
    if n :| n in s.tables.others && s.tables.others[n].email == Some(e) {
      assert Holds(s.tables, OtherRow(n), e);
    }
  }

  /** Writing one DT row keeps the index when nobody else holds its new email. */
  lemma {:induction false} WriteKeepsIndex(s: Run, t': Tables, id: SourceId, c: Contact, owner': map<Email, Key>)
    requires Consistent(s)
    requires t' == s.tables.(dt := s.tables.dt[id := c], conflicts := t'.conflicts)
    requires c.email.Some? ==> forall r :: Holds(s.tables, r, c.email.value) ==> r == DtRow(id)
    requires c.email.Some? ==> c.email.value in owner' && owner'[c.email.value] == DtKey(id)
    requires forall e :: e in s.owner ==> e in owner' && owner'[e] == s.owner[e]
    ensures Consistent(Run(t', owner'))
  {
    forall e, r | Holds(t', r, e)
      ensures (r == DtRow(id) && c.email == Some(e)) || Holds(s.tables, r, e)
    {
    }
  }

  /** Index safety, one row: the upsert never violates the unique email index. */
  lemma {:induction false} RowKeepsIndex(s: Run, p: Post)
    requires Consistent(s)
    ensures ImportRow(s, p).Done?
    ensures Consistent(ImportRow(s, p).run)
  {
    if Active(s.tables, p) {
      var owner := Claim(s.owner, p);
      var t := if Loses(s.owner, p) then RecordConflict(s.tables, p.id, DuplicateEmail, p.mapped.email.value) else s.tables;
      var email := if Loses(s.owner, p) then None else p.mapped.email;
      if email.Some? {
        WinnerIsFree(s, p);
      }
      assert forall e, r :: Holds(t, r, e) == Holds(s.tables, r, e);
      if Frozen(t, p.id) {
        assert forall e, r :: Holds(ImportRow(s, p).run.tables, r, e) == Holds(s.tables, r, e);
        OwnerOnlyGrows(s.owner, p);
        assert forall e, r :: Holds(s.tables, r, e) ==> KeyOf(ImportRow(s, p).run.tables, r) == KeyOf(s.tables, r);
      } else {
        OwnerOnlyGrows(s.owner, p);
        var t' := ImportRow(s, p).run.tables;
        WriteKeepsIndex(s, t', p.id, WrittenContact(t, p.id, email, p.mapped), owner);
      }
    } else {
      assert forall e, r :: Holds(ImportRow(s, p).run.tables, r, e) == Holds(s.tables, r, e);
      assert forall e, r :: Holds(s.tables, r, e) ==> KeyOf(ImportRow(s, p).run.tables, r) == KeyOf(s.tables, r);
    }
  }

  lemma {:induction false} OwnerOnlyGrows(owner: map<Email, Key>, p: Post)
    requires p.mapped.Mapped?
    ensures forall e :: e in owner ==> e in Claim(owner, p) && Claim(owner, p)[e] == owner[e]
  {
  }

  lemma {:induction false} ImportIsSafe(s: Run, posts: seq<Post>)
    requires Consistent(s)
    ensures ImportRows(s, posts).Done? && Consistent(ImportRows(s, posts).run)
  {
    if posts != [] {
      ImportIsSafe(s, posts[..|posts| - 1]);
      RowKeepsIndex(ImportRows(s, posts[..|posts| - 1]).run, posts[|posts| - 1]);
    }
  }

  /** Index safety, every row of every import: no prefix of a run can abort, and after each one
      the stored emails are unique and known to the dictionary. */
  lemma {:induction false} ImportKeepsIndex(t: Tables, posts: seq<Post>)
    requires WellFormed(t)
    ensures forall i :: 0 <= i <= |posts| ==> ImportRows(Start(t), posts[..i]).Done?
    ensures forall i :: 0 <= i <= |posts| ==> Consistent(ImportRows(Start(t), posts[..i]).run)
  {
    StartIsConsistent(t);
    forall i | 0 <= i <= |posts|
      ensures ImportRows(Start(t), posts[..i]).Done? && Consistent(ImportRows(Start(t), posts[..i]).run)
    {
      ImportIsSafe(Start(t), posts[..i]);
    }
  }

  /** A whole production pass over the contacts table. */
  ghost function Pass(t: Tables, posts: seq<Post>): (r: Tables)
    requires WellFormed(t)
    ensures WellFormed(r)
  {
    StartIsConsistent(t);
    ImportIsSafe(Start(t), posts);
    ImportRows(Start(t), posts).run.tables
  }

  /** A pass touches no locally modified row, no suppressed source id and no contact from another
      source, and puts no suppressed email anywhere it was not already stored. */
  ghost predicate Respects(t: Tables, t': Tables) {
    && t'.others == t.others && t'.deleted == t.deleted
    && (forall id :: Frozen(t, id) || SuppressedId(t, id) ==>
          (id in t'.dt <==> id in t.dt) && (id in t.dt ==> t'.dt[id] == t.dt[id]))
    && (forall id :: id in t'.dt && !Frozen(t, id) ==> !t'.dt[id].locallyModified)
    && (forall e, r :: SuppressedEmail(t, e) && Holds(t', r, e) ==> Holds(t, r, e))
  }

  lemma {:induction false} UpsertEffect(t: Tables, id: SourceId, email: Option<Email>, m: Mapped)
    requires m.Mapped? && !UpsertContact(t, id, email, m).UniqueViolation?
    ensures UpsertContact(t, id, email, m) == if Frozen(t, id) then Skipped else Written(t.(dt := t.dt[id := WrittenContact(t, id, email, m)]))
  {
  }

  lemma {:induction false} ActiveRowEffect(s: Run, p: Post)
    requires Active(s.tables, p) && ImportRow(s, p).Done?
    ensures var s' := ImportRow(s, p).run;
      && s'.tables.others == s.tables.others && s'.tables.deleted == s.tables.deleted
      && s'.owner == Claim(s.owner, p)
      && s'.tables.dt == if Frozen(s.tables, p.id) then s.tables.dt else s.tables.dt[p.id := WrittenRow(s, p)]
  {
    var t := if Loses(s.owner, p) then RecordConflict(s.tables, p.id, DuplicateEmail, p.mapped.email.value) else s.tables;
    var email := if Loses(s.owner, p) then None else p.mapped.email;
    UpsertEffect(t, p.id, email, p.mapped);
  }

  /** What one row changes, branch by branch. */
  lemma {:induction false} RowEffect(s: Run, p: Post)
    requires Consistent(s)
    ensures ImportRow(s, p).Done?
    ensures var s' := ImportRow(s, p).run;
      && s'.tables.others == s.tables.others && s'.tables.deleted == s.tables.deleted
      && s'.owner == (if Active(s.tables, p) then Claim(s.owner, p) else s.owner)
      && s'.tables.dt == if Writes(s.tables, p) then s.tables.dt[p.id := WrittenRow(s, p)] else s.tables.dt
  {
    RowKeepsIndex(s, p);
    if Active(s.tables, p) {
      ActiveRowEffect(s, p);
    }
  }

  lemma {:induction false} RowRespects(s: Run, p: Post)
    requires Consistent(s)
    ensures ImportRow(s, p).Done? && Respects(s.tables, ImportRow(s, p).run.tables)
  {
    RowEffect(s, p);
    WriteRespects(s, p, ImportRow(s, p).run.tables);
  }

  lemma {:induction false} WriteRespects(s: Run, p: Post, t': Tables)
    requires t'.others == s.tables.others && t'.deleted == s.tables.deleted
    requires t'.dt == if Writes(s.tables, p) then s.tables.dt[p.id := WrittenRow(s, p)] else s.tables.dt
    ensures Respects(s.tables, t')
  {
  }

  lemma {:induction false} RespectsTransitive(t0: Tables, t1: Tables, t2: Tables)
    requires Respects(t0, t1) && Respects(t1, t2)
    ensures Respects(t0, t2)
  {
  }

  lemma {:induction false} ImportRespects(s: Run, posts: seq<Post>)
    requires Consistent(s)
    ensures ImportRows(s, posts).Done?
    ensures Respects(s.tables, ImportRows(s, posts).run.tables)
  {
    ImportIsSafe(s, posts);
    if posts != [] {
      var init := posts[..|posts| - 1];
      ImportIsSafe(s, init);
      ImportRespects(s, init);
      RowRespects(ImportRows(s, init).run, posts[|posts| - 1]);
      RespectsTransitive(s.tables, ImportRows(s, init).run.tables, ImportRows(s, posts).run.tables);
    }
  }

  /** Frozen rows, suppressed ids and suppressed emails, for a whole pass. */
  lemma {:induction false} PassRespects(t: Tables, posts: seq<Post>)
    requires WellFormed(t)
    ensures Respects(t, Pass(t, posts))
  {
    StartIsConsistent(t);
    ImportRespects(Start(t), posts);
  }
}
