/** The tables a production DT contacts import reads and writes, and one row of that import.

    The partial unique index on (source_system, source_id) makes the DT contacts a map from
    source id to row. Every other contact (local, forms, DT without a source id) is never
    written by the import; it matters only through the email it holds. A contact_profile row
    is 1:1 with its contact, so it is stored inside it. */
module ContactTables {
  import opened Options

  type SourceId = string
  type Email = string

  /** The columns of contact_profile that are named, with None for an explicit NULL; one that is not named
      is NULL in a new row and left as it is in a stored one. */
  type Profile = map<string, Option<string>>

  datatype Key = Key(system: Option<string>, sourceId: Option<SourceId>)

  function DtKey(id: SourceId): Key {
    Key(Some("dt"), Some(id))
  }

  /** The columns that DO UPDATE overwrites, apart from the email. */
  datatype Imported = Imported(
    partyKind: string, displayName: string, adopterStatus: Option<string>,
    facilitatorStatus: Option<string>, phone: Option<string>, origin: Option<string>)

  datatype Contact = Contact(
    email: Option<Email>, imported: Imported, createdAt: int,
    locallyModified: bool, profile: Option<Profile>)

  datatype OtherContact = OtherContact(key: Key, email: Option<Email>)

  datatype Deleted = Deleted(key: Key, email: Option<Email>)

  datatype ConflictKind = UnmappedStatus(partyKind: string) | DuplicateEmail | LocallyModified

  datatype ConflictKey = ConflictKey(sourceId: SourceId, kind: ConflictKind)

  datatype Tables = Tables(
    dt: map<SourceId, Contact>, others: map<nat, OtherContact>,
    deleted: set<Deleted>, conflicts: map<ConflictKey, string>)

  /** What the mappers make of one wp_posts row and its postmeta. */
  datatype Mapped =
    | Unmapped(partyKind: string, rawStatus: string)
    | Mapped(email: Option<Email>, imported: Imported, createdAt: int, profile: Option<Profile>)

  datatype Post = Post(id: SourceId, mapped: Mapped)

  /** wp_posts.ID is a primary key, so a source never lists an id twice. */
  ghost predicate DistinctIds(posts: seq<Post>) {
    forall i, j :: 0 <= i < j < |posts| ==> posts[i].id != posts[j].id
  }

  // ---------------------------------------------------------------- the email index

  datatype RowRef = DtRow(id: SourceId) | OtherRow(n: nat)

  predicate Holds(t: Tables, r: RowRef, e: Email) {
    match r
    case DtRow(id) => id in t.dt && t.dt[id].email == Some(e)
    case OtherRow(n) => n in t.others && t.others[n].email == Some(e)
  }

  function KeyOf(t: Tables, r: RowRef): Key
    requires r.OtherRow? ==> r.n in t.others
  {
    match r
    case DtRow(id) => DtKey(id)
    case OtherRow(n) => t.others[n].key
  }

  /** uq_contacts_email_normalized, and the split of the contacts into the two maps. */
  ghost predicate WellFormed(t: Tables) {
    && (forall e, r1, r2 :: Holds(t, r1, e) && Holds(t, r2, e) ==> r1 == r2)
    && (forall n, id :: n in t.others ==> t.others[n].key != DtKey(id))
  }

  lemma {:induction false} OneHolder(t: Tables, r1: RowRef, r2: RowRef, e: Email)
    requires WellFormed(t) && Holds(t, r1, e) && Holds(t, r2, e)
    ensures r1 == r2
  {
  }

  function StoredEmails(t: Tables): (emails: set<Email>)
    ensures forall e :: e in emails <==> exists r :: Holds(t, r, e)
  {
    var byDt := set id | id in t.dt && t.dt[id].email.Some? :: t.dt[id].email.value;
    var byOthers := set n | n in t.others && t.others[n].email.Some? :: t.others[n].email.value;
    assert forall e :: e in byDt + byOthers ==> exists r :: Holds(t, r, e) by {
      forall e | e in byDt ensures exists r :: Holds(t, r, e) {
        var id :| id in t.dt && t.dt[id].email == Some(e);
        assert Holds(t, DtRow(id), e);
      }
      forall e | e in byOthers ensures exists r :: Holds(t, r, e) {
        var n :| n in t.others && t.others[n].email == Some(e);
        assert Holds(t, OtherRow(n), e);
      }
    }
    byDt + byOthers
  }

  ghost function HolderKey(t: Tables, e: Email): (key: Key)
    requires WellFormed(t) && e in StoredEmails(t)
    ensures forall r :: Holds(t, r, e) ==> key == KeyOf(t, r)
  {
    var r :| Holds(t, r, e);
    KeyOf(t, r)
  }

  /** _load_email_owners: every stored email and the key of the row that holds it. */
  ghost function EmailOwners(t: Tables): (owner: map<Email, Key>)
    requires WellFormed(t)
    ensures forall e, r :: Holds(t, r, e) ==> e in owner && owner[e] == KeyOf(t, r)
    ensures forall e :: e in owner ==> exists r :: Holds(t, r, e)
  {
    map e | e in StoredEmails(t) :: HolderKey(t, e)
  }

  predicate Read(r: RowRef, dtLeft: set<SourceId>, othersLeft: set<nat>) {
    match r
    case DtRow(id) => id !in dtLeft
    case OtherRow(n) => n !in othersLeft
  }

  /** The dictionary after reading all rows but some. */
  ghost predicate Loaded(t: Tables, dtLeft: set<SourceId>, othersLeft: set<nat>, owner: map<Email, Key>)
    requires WellFormed(t)
  {
    && (forall e, r :: Holds(t, r, e) && Read(r, dtLeft, othersLeft) ==> e in owner)
    && (forall e :: e in owner ==> e in StoredEmails(t) && owner[e] == HolderKey(t, e))
  }

  method LoadEmailOwners(t: Tables) returns (owner: map<Email, Key>)
    requires WellFormed(t)
    ensures owner == EmailOwners(t)
  {
    owner := map[];
    var dtLeft := t.dt.Keys;
    var othersLeft := t.others.Keys;
    while dtLeft != {}
      invariant dtLeft <= t.dt.Keys && Loaded(t, dtLeft, othersLeft, owner)
    {
      var id :| id in dtLeft;
      dtLeft := dtLeft - {id};
      if t.dt[id].email.Some? {
        assert Holds(t, DtRow(id), t.dt[id].email.value);
        owner := owner[t.dt[id].email.value := DtKey(id)];
      }
    }
    while othersLeft != {}
      invariant othersLeft <= t.others.Keys && Loaded(t, {}, othersLeft, owner)
    {
      var n :| n in othersLeft;
      othersLeft := othersLeft - {n};
      if t.others[n].email.Some? {
        assert Holds(t, OtherRow(n), t.others[n].email.value);
        owner := owner[t.others[n].email.value := t.others[n].key];
      }
    }
  }

  // ---------------------------------------------------------------- suppression

  /** _load_suppressed_contacts, split in its two results. */
  predicate SuppressedId(t: Tables, id: SourceId) {
    exists d :: d in t.deleted && d.key == DtKey(id)
  }

  predicate SuppressedEmail(t: Tables, e: Email) {
    exists d :: d in t.deleted && d.email == Some(e)
  }

  /** A post that gets as far as the email claim and the upsert. */
  predicate Active(t: Tables, p: Post) {
    && !SuppressedId(t, p.id)
    && p.mapped.Mapped?
    && !(p.mapped.email.Some? && SuppressedEmail(t, p.mapped.email.value))
  }

  predicate Frozen(t: Tables, id: SourceId) {
    id in t.dt && t.dt[id].locallyModified
  }

  // ---------------------------------------------------------------- one row

  /** INSERT .. ON CONFLICT DO NOTHING on the natural key. */
  function RecordConflict(t: Tables, id: SourceId, kind: ConflictKind, value: string): Tables {
    var key := ConflictKey(id, kind);
    if key in t.conflicts then t else t.(conflicts := t.conflicts[key := value])
  }

  datatype Upsert = UniqueViolation | Skipped | Written(tables: Tables)

  /** The insert of a profile row, or the update of exactly the columns the post maps. */
  function MergedProfile(stored: Option<Profile>, mapped: Option<Profile>): Option<Profile> {
    if mapped.None? then stored
    else if stored.None? then mapped
    else Some(stored.value + mapped.value)
  }

  function WrittenContact(t: Tables, id: SourceId, email: Option<Email>, m: Mapped): Contact
    requires m.Mapped?
  {
    if id in t.dt then
      t.dt[id].(email := email, imported := m.imported,
                profile := MergedProfile(t.dt[id].profile, m.profile))
    else
      Contact(email, m.imported, m.createdAt, false, m.profile)
  }

  /** The contact upsert followed by the profile upsert. Postgres finds the conflicting source
      key first, so a locally modified row is skipped before the email index is consulted. */
  function UpsertContact(t: Tables, id: SourceId, email: Option<Email>, m: Mapped): Upsert
    requires m.Mapped?
  {
    if Frozen(t, id) then Skipped
    else if email.Some? && HeldElsewhere(t, id, email.value) then UniqueViolation
    else Written(t.(dt := t.dt[id := WrittenContact(t, id, email, m)]))
  }

  predicate HeldElsewhere(t: Tables, id: SourceId, e: Email) {
    || (exists other :: other in t.dt && other != id && t.dt[other].email == Some(e))
    || (exists n :: n in t.others && t.others[n].email == Some(e))
  }

  /** The state one run threads through its rows. */
  datatype Run = Run(tables: Tables, owner: map<Email, Key>)

  datatype Outcome = Done(run: Run) | Aborted

  predicate Loses(owner: map<Email, Key>, p: Post)
    requires p.mapped.Mapped?
  {
    p.mapped.email.Some? && p.mapped.email.value in owner && owner[p.mapped.email.value] != DtKey(p.id)
  }

  /** The email_owner dictionary after one active row has tried to claim its email. */
  function Claim(owner: map<Email, Key>, p: Post): map<Email, Key>
    requires p.mapped.Mapped?
  {
    if p.mapped.email.None? || Loses(owner, p) then owner else owner[p.mapped.email.value := DtKey(p.id)]
  }

  /** The posts whose row is inserted or overwritten. */
  predicate Writes(t: Tables, p: Post) {
    Active(t, p) && !Frozen(t, p.id)
  }

  /** The row such a post leaves, given the claims made so far: a colliding email is dropped. */
  function WrittenRow(s: Run, p: Post): Contact
    requires p.mapped.Mapped?
  {
    WrittenContact(s.tables, p.id, if Loses(s.owner, p) then None else p.mapped.email, p.mapped)
  }

  /** One iteration of the loop in _flush_contact_batch, in production mode. */
  function ImportRow(s: Run, p: Post): Outcome {
    if SuppressedId(s.tables, p.id) then Done(s)
    else if p.mapped.Unmapped? then
      Done(s.(tables := RecordConflict(s.tables, p.id, UnmappedStatus(p.mapped.partyKind), p.mapped.rawStatus)))
    else if p.mapped.email.Some? && SuppressedEmail(s.tables, p.mapped.email.value) then Done(s)
    else
      var t := if Loses(s.owner, p) then RecordConflict(s.tables, p.id, DuplicateEmail, p.mapped.email.value) else s.tables;
      var email := if Loses(s.owner, p) then None else p.mapped.email;
      var owner := Claim(s.owner, p);
      match UpsertContact(t, p.id, email, p.mapped)
      case UniqueViolation => Aborted
      case Skipped => Done(Run(RecordConflict(t, p.id, LocallyModified, p.mapped.imported.displayName), owner))
      case Written(t') => Done(Run(t', owner))
  }

  /** The state after importing the posts in order, however they are batched. */
  function ImportRows(s: Run, posts: seq<Post>): Outcome {
    if posts == [] then Done(s)
    else
      match ImportRows(s, posts[..|posts| - 1])
      case Aborted => Aborted
      case Done(s') => ImportRow(s', posts[|posts| - 1])
  }

  ghost function Start(t: Tables): Run
    requires WellFormed(t)
  {
    Run(t, EmailOwners(t))
  }
}
