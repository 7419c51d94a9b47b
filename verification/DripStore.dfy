/** The enrolling, exiting and draining functions as they update their rows, proved against the
    functions of DripEngine. */
module DripStore {
  import opened Options
  import opened DripSteps
  import opened DripEngine
  import opened DripLifecycle
  import opened DripOutcome

  datatype EnrollOutcome =
    | Created(id: EnrollmentId)
    | AlreadyEnrolled(existing: EnrollmentId)
    | SuppressedContact
    | DoNotEngageContact
    | NoContact
    | NoCampaign

  /** What an outcome says about the tables before and after: no two of the cases can hold together. */
  ghost predicate Explains(w: World, w': World, campaign: CampaignId, contact: ContactId, outcome: EnrollOutcome)
    requires campaign < |w.campaigns| && contact in w.contacts
  {
    match outcome
    case DoNotEngageContact => DoNotEngage(w, contact)
    case SuppressedContact => !DoNotEngage(w, contact) && Suppressed(w, contact)
    case AlreadyEnrolled(id) =>
      && !DoNotEngage(w, contact) && !Suppressed(w, contact)
      && id in w.enrollments && OpenFor(w.enrollments[id], campaign, contact)
    case Created(id) =>
      && !DoNotEngage(w, contact) && !Suppressed(w, contact) && !HasOpen(w, campaign, contact)
      && id !in w.enrollments && id in w'.enrollments && w'.enrollments[id] == NewEnrollment(w, campaign, contact)
    case NoContact => false
    case NoCampaign => false
  }

  function CreatedCount(outcomes: seq<EnrollOutcome>): nat {
    if outcomes == [] then 0 else CreatedCount(outcomes[..|outcomes| - 1]) + if outcomes[|outcomes| - 1].Created? then 1 else 0
  }

  /** Every enrollment there is now and was not before is named by an outcome, there are as many of them as
      outcomes that name one, and those there were before are as they were. */
  ghost predicate NamedBy(before: map<EnrollmentId, Enrollment>, after: map<EnrollmentId, Enrollment>, outcomes: seq<EnrollOutcome>) {
    && (forall id :: id in before ==> id in after && after[id] == before[id])
    && (forall id :: id in after && id !in before ==> Created(id) in outcomes)
    && |after| == |before| + CreatedCount(outcomes)
  }

  lemma {:induction false} OneMoreNamed(start: map<EnrollmentId, Enrollment>, before: map<EnrollmentId, Enrollment>,
                                        after: map<EnrollmentId, Enrollment>, outcomes: seq<EnrollOutcome>, outcome: EnrollOutcome)
    requires NamedBy(start, before, outcomes)
    requires if outcome.Created? then outcome.id !in before && outcome.id in after && after == before[outcome.id := after[outcome.id]]
             else after == before
    ensures NamedBy(start, after, outcomes + [outcome])
  {
    assert (outcomes + [outcome])[..|outcomes|] == outcomes;
    assert outcome in outcomes + [outcome];
    assert outcome.Created? ==> after.Keys == before.Keys + {outcome.id};
  }

  /** The first n campaigns that an event concerns, in order. */
  function Concerned(campaigns: seq<Campaign>, eventType: string, n: nat): (r: seq<CampaignId>)
    requires n <= |campaigns|
    ensures forall k :: 0 <= k < |r| ==> r[k] < n
    ensures forall i :: 0 <= i < |campaigns| ==> (i in r <==> i < n && campaigns[i].active && campaigns[i].trigger == eventType)
  {
    if n == 0 then []
    else
      var earlier := Concerned(campaigns, eventType, n - 1);
      if campaigns[n - 1].active && campaigns[n - 1].trigger == eventType then earlier + [n - 1] else earlier
  }

  /** Reacting for campaigns below n says nothing about campaign n. */
  lemma {:induction false} OthersDoNotMatter(w: World, eventType: string, contact: ContactId, n: nat)
    requires n <= |w.campaigns| && contact in w.contacts && FreshIds(w)
    ensures var w' := EnrolledUpTo(w, eventType, contact, n);
            && FreshIds(w') && w.next <= w'.next
            && (forall id :: id in w.enrollments ==> id in w'.enrollments && w'.enrollments[id] == w.enrollments[id])
            && (forall id :: id in w'.enrollments && id !in w.enrollments ==> w'.enrollments[id].campaign < n)
  {
    if n > 0 {
      OthersDoNotMatter(w, eventType, contact, n - 1);
    }
  }

  lemma {:induction false} ExplainsFromTheStart(w: World, mid: World, w': World, campaign: CampaignId, contact: ContactId, outcome: EnrollOutcome)
    requires campaign < |w.campaigns| && contact in w.contacts
    requires mid.campaigns == w.campaigns && mid.contacts == w.contacts && mid.suppressed == w.suppressed
    requires forall id :: id in w.enrollments ==> id in mid.enrollments && mid.enrollments[id] == w.enrollments[id]
    requires forall id :: id in mid.enrollments && id !in w.enrollments ==> mid.enrollments[id].campaign < campaign
    requires Explains(mid, w', campaign, contact, outcome)
    ensures Explains(w, w', campaign, contact, outcome)
  {
  }

  lemma {:induction false} BatchAscends(outbox: seq<OutboxRow>, locked: set<nat>, from: nat, limit: nat)
    requires from <= |outbox|
    ensures forall j, k :: 0 <= j < k < |Batch(outbox, locked, from, limit)| ==>
              Batch(outbox, locked, from, limit)[j] < Batch(outbox, locked, from, limit)[k]
    decreases |outbox| - from
  {
    if from < |outbox| && limit > 0 {
      if outbox[from].drained || from in locked {
        BatchAscends(outbox, locked, from + 1, limit);
      } else {
        BatchAscends(outbox, locked, from + 1, limit - 1);
      }
    }
  }

  class Store {
    var contacts: map<ContactId, Contact>
    var suppressed: set<string>
    var campaigns: seq<Campaign>
    var enrollments: map<EnrollmentId, Enrollment>
    var next: EnrollmentId
    var outbox: seq<OutboxRow>

    ghost function Tables(): World
      reads this
    {
      World(contacts, suppressed, campaigns, enrollments, next, outbox)
    }

    constructor (w: World)
      ensures Tables() == w
    {
      contacts, suppressed, campaigns := w.contacts, w.suppressed, w.campaigns;
      enrollments, next, outbox := w.enrollments, w.next, w.outbox;
    }

    /** The unique index refuses the insert exactly when an open enrollment exists, which is then named. */
    method EnrollContactInCampaign(campaign: CampaignId, contact: ContactId) returns (outcome: EnrollOutcome)
      requires campaign < |campaigns| && contact in contacts && FreshIds(Tables())
      modifies this`enrollments, this`next
      ensures Tables() == Enrolled(old(Tables()), campaign, contact)
      ensures Explains(old(Tables()), Tables(), campaign, contact, outcome)
      ensures if outcome.Created?
              then outcome.id !in old(enrollments) && outcome.id in enrollments
                   && enrollments == old(enrollments)[outcome.id := enrollments[outcome.id]]
              else enrollments == old(enrollments)
    {
      if contacts[contact].status == Some(DO_NOT_ENGAGE) {
        return DoNotEngageContact;
      }
      var email := contacts[contact].email;
      if email.Some? && email.value != "" && email.value in suppressed {
        return SuppressedContact;
      }
      var first := EnrollmentRow.NextPosition(campaigns[campaign].steps, 0);
      var position := if first.None? then 0 else first.value;
      var row := Enrollment(campaign, contact, campaigns[campaign].version, position, Active, None, None, None, []);
      if exists id :: id in enrollments && OpenFor(enrollments[id], campaign, contact) {
        var existing :| existing in enrollments && OpenFor(enrollments[existing], campaign, contact);
        return AlreadyEnrolled(existing);
      }
      enrollments := enrollments[next := row];
      next := next + 1;
      return Created(next - 1);
    }

    /** One outcome for each campaign the event concerns, in order. */
    method EnrollOnEvent(eventType: string, contact: ContactId) returns (outcomes: seq<EnrollOutcome>)
      requires FreshIds(Tables())
      modifies this`enrollments, this`next
      ensures Tables() == EnrolledOnEvent(old(Tables()), eventType, contact) && FreshIds(Tables())
      ensures contact !in contacts ==> outcomes == [NoContact]
      ensures contact in contacts && Concerned(campaigns, eventType, |campaigns|) == [] ==> outcomes == [NoCampaign]
      ensures contact in contacts && Concerned(campaigns, eventType, |campaigns|) != [] ==>
                ExplainAll(old(Tables()), Tables(), Concerned(campaigns, eventType, |campaigns|), contact, outcomes)
      ensures NamedBy(old(enrollments), enrollments, outcomes)
    {
      if contact !in contacts {
        return [NoContact];
      }
      outcomes := [];
      ghost var start := Tables();
      for i := 0 to |campaigns|
        invariant campaigns == start.campaigns && Reacted(start, Tables(), eventType, contact, i, outcomes)
        invariant NamedBy(start.enrollments, enrollments, outcomes)
      {
        outcomes := EnrollNext(start, i, eventType, contact, outcomes);
      }
      if outcomes == [] {
        return [NoCampaign];
      }
    }

    method EnrollNext(ghost start: World, i: nat, eventType: string, contact: ContactId, outcomes: seq<EnrollOutcome>)
      returns (outcomes': seq<EnrollOutcome>)
      requires i < |start.campaigns| && contact in start.contacts && FreshIds(start)
      requires Reacted(start, Tables(), eventType, contact, i, outcomes) && NamedBy(start.enrollments, enrollments, outcomes)
      modifies this`enrollments, this`next
      ensures Reacted(start, Tables(), eventType, contact, i + 1, outcomes') && NamedBy(start.enrollments, enrollments, outcomes')
    {
      if !(campaigns[i].active && campaigns[i].trigger == eventType) {
        return outcomes;
      }
      ghost var mid := Tables();
      var outcome := EnrollContactInCampaign(i, contact);
      OneMoreOutcome(start, mid, Tables(), eventType, contact, i, outcomes, outcome);
      OneMoreNamed(start.enrollments, mid.enrollments, enrollments, outcomes, outcome);
      return outcomes + [outcome];
    }

    method ExitEnrollmentsForContact(contact: ContactId, reason: string, now: int) returns (count: nat)
      modifies this`enrollments
      ensures Tables() == ExitedFor(old(Tables()), contact, reason, now)
      ensures NoneOpen(Tables(), contact)
      ensures count == |set id | id in old(enrollments) && old(enrollments)[id].contact == contact && Open(old(enrollments)[id])|
    {
      var open := set id | id in enrollments && enrollments[id].contact == contact && Open(enrollments[id]);
      var left := open;
      while left != {}
        invariant left <= open
        invariant enrollments.Keys == old(enrollments).Keys
        invariant forall id :: id in enrollments && (id !in open || id in left) ==> enrollments[id] == old(enrollments)[id]
        invariant forall id :: id in open && id !in left ==> enrollments[id] == WithdrawnAt(old(enrollments)[id], reason, now)
      {
        var id :| id in left;
        enrollments := enrollments[id := WithdrawnAt(enrollments[id], reason, now)];
        left := left - {id};
      }
      assert enrollments == ExitedFor(old(Tables()), contact, reason, now).enrollments;
      return |open|;
    }

    /** SELECT … ORDER BY created_at LIMIT … FOR UPDATE SKIP LOCKED. */
    method SelectBatch(locked: set<nat>) returns (rows: seq<nat>)
      ensures rows == Batch(outbox, locked, 0, 50)
    {
      rows := [];
      var i := 0;
      while i < |outbox| && |rows| < DRAIN_BATCH_SIZE
        invariant i <= |outbox| && |rows| <= DRAIN_BATCH_SIZE
        invariant rows + Batch(outbox, locked, i, DRAIN_BATCH_SIZE - |rows|) == Batch(outbox, locked, 0, DRAIN_BATCH_SIZE)
      {
        if !outbox[i].drained && i !in locked {
          assert rows + Batch(outbox, locked, i, DRAIN_BATCH_SIZE - |rows|)
              == rows + [i] + Batch(outbox, locked, i + 1, DRAIN_BATCH_SIZE - |rows| - 1);
          rows := rows + [i];
        }
        i := i + 1;
      }
    }

    /** processed counts the rows of the batch whose contact_id could be read or was absent. */
    method DrainDripEnrollments(locked: set<nat>, now: int) returns (processed: nat)
      requires FreshIds(Tables())
      modifies this
      ensures Tables() == Drained(old(Tables()), locked, now) && FreshIds(Tables())
      ensures RowsDid(old(Tables()), Tables(), Batch(old(outbox), locked, 0, 50), now)
      ensures processed == |Readable(old(outbox), Batch(old(outbox), locked, 0, 50))|
    {
      var rows := SelectBatch(locked);
      DrainTells(Tables(), locked, now);
      BatchAscends(outbox, locked, 0, DRAIN_BATCH_SIZE);
      processed := 0;
      ghost var start := Tables();
      for k := 0 to |rows|
        invariant Tables() == DrainedRows(start, rows[..k], now) && FreshIds(Tables())
        invariant processed == |Readable(start.outbox, rows[..k])|
      {
        OneMoreRow(start, rows, k, now);
        DrainRow(rows[k], now);
        if !outbox[rows[k]].contact.Malformed? {
          processed := processed + 1;
        }
      }
      assert rows[..|rows|] == rows;
    }

    method DrainRow(i: nat, now: int)
      requires i < |outbox| && FreshIds(Tables())
      modifies this
      ensures Tables() == DrainedRow(old(Tables()), i, now) && FreshIds(Tables())
      ensures outbox[i] == old(outbox)[i].(drained := true)
    {
      var row := outbox[i];
      match row.contact {
        case Missing =>
        case Malformed =>
        case Ref(contact) =>
          if row.eventType == DO_NOT_ENGAGE_EVENT {
            var exited := ExitEnrollmentsForContact(contact, DO_NOT_ENGAGE, now);
          } else {
            var outcomes := EnrollOnEvent(row.eventType, contact);
          }
      }
      outbox := outbox[i := row.(drained := true)];
    }
  }

  ghost predicate ExplainAll(w: World, w': World, campaigns: seq<CampaignId>, contact: ContactId, outcomes: seq<EnrollOutcome>)
    requires contact in w.contacts
  {
    && |outcomes| == |campaigns|
    && forall k :: 0 <= k < |campaigns| ==> campaigns[k] < |w.campaigns| && Explains(w, w', campaigns[k], contact, outcomes[k])
  }

  lemma {:induction false} ExplainAllOnward(w: World, mid: World, w': World, campaigns: seq<CampaignId>, contact: ContactId, outcomes: seq<EnrollOutcome>)
    requires contact in w.contacts && ExplainAll(w, mid, campaigns, contact, outcomes)
    requires forall id :: id in mid.enrollments ==> id in w'.enrollments && w'.enrollments[id] == mid.enrollments[id]
    ensures ExplainAll(w, w', campaigns, contact, outcomes)
  {
    forall k | 0 <= k < |campaigns| ensures Explains(w, w', campaigns[k], contact, outcomes[k]) {
      assert Explains(w, mid, campaigns[k], contact, outcomes[k]);
    }
  }

  /** Where reacting to an event stands when the campaigns below n have been looked at. */
  ghost predicate Reacted(start: World, w: World, eventType: string, contact: ContactId, n: nat, outcomes: seq<EnrollOutcome>)
    requires n <= |start.campaigns| && contact in start.contacts
  {
    && w == EnrolledUpTo(start, eventType, contact, n) && FreshIds(w)
    && ExplainAll(start, w, Concerned(start.campaigns, eventType, n), contact, outcomes)
  }

  lemma {:induction false} OneMoreOutcome(start: World, mid: World, w: World, eventType: string, contact: ContactId, n: nat,
                                          outcomes: seq<EnrollOutcome>, outcome: EnrollOutcome)
    requires n < |start.campaigns| && contact in start.contacts && FreshIds(start)
    requires start.campaigns[n].active && start.campaigns[n].trigger == eventType
    requires Reacted(start, mid, eventType, contact, n, outcomes)
    requires w == Enrolled(mid, n, contact) && Explains(mid, w, n, contact, outcome)
    ensures Reacted(start, w, eventType, contact, n + 1, outcomes + [outcome])
  {
    OthersDoNotMatter(start, eventType, contact, n);
    OthersDoNotMatter(start, eventType, contact, n + 1);
    ExplainsFromTheStart(start, mid, w, n, contact, outcome);
    ExplainAllOnward(start, mid, w, Concerned(start.campaigns, eventType, n), contact, outcomes);
  }

  /** The rows among these whose contact_id is absent or can be read. */
  function Readable(outbox: seq<OutboxRow>, rows: seq<nat>): set<nat>
    requires forall k :: 0 <= k < |rows| ==> rows[k] < |outbox|
  {
    set i | i in rows && !outbox[i].contact.Malformed?
  }

  lemma {:induction false} OneMoreRow(w: World, rows: seq<nat>, k: nat, now: int)
    requires k < |rows| && (forall j :: 0 <= j < |rows| ==> rows[j] < |w.outbox|)
    requires forall i, j :: 0 <= i < j < |rows| ==> rows[i] < rows[j]
    ensures DrainedRows(w, rows[..k + 1], now) == DrainedRow(DrainedRows(w, rows[..k], now), rows[k], now)
    ensures DrainedRows(w, rows[..k], now).outbox[rows[k]].contact == w.outbox[rows[k]].contact
    ensures |Readable(w.outbox, rows[..k + 1])|
         == |Readable(w.outbox, rows[..k])| + if w.outbox[rows[k]].contact.Malformed? then 0 else 1
  {
    RowsKeepTheirEvent(w, rows[..k], now);
    assert rows[..k + 1][..k] == rows[..k];
    var before, after := Readable(w.outbox, rows[..k]), Readable(w.outbox, rows[..k + 1]);
    assert rows[..k + 1] == rows[..k] + [rows[k]];
    assert rows[k] !in before;
    assert after == if w.outbox[rows[k]].contact.Malformed? then before else before + {rows[k]};
  }
}
