/** Campaigns, contacts, enrollments and the outbox, and the drain that turns outbox events into
    enrollments and exits. One drain transaction, one worker tick on one enrollment and one staff
    action are each one step. */
module DripEngine {
  import opened Options
  import opened DripSteps
  import DripWalk

  const DO_NOT_ENGAGE := "do_not_engage"
  const DO_NOT_ENGAGE_EVENT := "jp.adopt.v1.contact.do_not_engage"
  const DRAIN_BATCH_SIZE := 50

  type EnrollmentId = nat

  datatype Contact = Contact(status: Option<string>, email: Option<string>)

  datatype Campaign = Campaign(active: bool, trigger: string, version: int, steps: Steps)

  /** contact_id in the payload: absent, not a UUID, or a contact. */
  datatype ContactRef = Missing | Malformed | Ref(id: ContactId)

  datatype OutboxRow = OutboxRow(eventType: string, contact: ContactRef, drained: bool)

  /** Outbox rows are in created_at order; a campaign's id is its index. */
  datatype World = World(
    contacts: map<ContactId, Contact>, suppressed: set<string>, campaigns: seq<Campaign>,
    enrollments: map<EnrollmentId, Enrollment>, next: EnrollmentId, outbox: seq<OutboxRow>)

  ghost predicate FreshIds(w: World) {
    forall id :: id in w.enrollments ==> id < w.next
  }

  // ---------------------------------------------------------------- enroll and exit

  predicate DoNotEngage(w: World, contact: ContactId) {
    contact in w.contacts && w.contacts[contact].status == Some(DO_NOT_ENGAGE)
  }

  predicate Suppressed(w: World, contact: ContactId)
    requires contact in w.contacts
  {
    var email := w.contacts[contact].email;
    email.Some? && email.value != "" && email.value in w.suppressed
  }

  predicate OpenFor(e: Enrollment, campaign: CampaignId, contact: ContactId) {
    Open(e) && e.campaign == campaign && e.contact == contact
  }

  /** What uq_enrollment_open_per_campaign_contact would refuse a second row for. */
  predicate HasOpen(w: World, campaign: CampaignId, contact: ContactId) {
    exists id :: id in w.enrollments && OpenFor(w.enrollments[id], campaign, contact)
  }

  ghost function StartPosition(steps: Steps): int {
    match NextFrom(steps, 0) case None => 0 case Some(p) => p
  }

  ghost function NewEnrollment(w: World, campaign: CampaignId, contact: ContactId): Enrollment
    requires campaign < |w.campaigns|
  {
    Enrollment(campaign, contact, w.campaigns[campaign].version, StartPosition(w.campaigns[campaign].steps),
               Active, None, None, None, [])
  }

  ghost function Enrolled(w: World, campaign: CampaignId, contact: ContactId): World
    requires campaign < |w.campaigns| && contact in w.contacts
  {
    if DoNotEngage(w, contact) || Suppressed(w, contact) || HasOpen(w, campaign, contact) then w
    else w.(enrollments := w.enrollments[w.next := NewEnrollment(w, campaign, contact)], next := w.next + 1)
  }

  /** The first n campaigns have reacted to the event. */
  ghost function EnrolledUpTo(w: World, eventType: string, contact: ContactId, n: nat): (w': World)
    requires n <= |w.campaigns| && contact in w.contacts
    ensures w'.campaigns == w.campaigns && w'.contacts == w.contacts && w'.outbox == w.outbox && w'.suppressed == w.suppressed
  {
    if n == 0 then w
    else
      var earlier := EnrolledUpTo(w, eventType, contact, n - 1);
      var c := w.campaigns[n - 1];
      if c.active && c.trigger == eventType then Enrolled(earlier, n - 1, contact) else earlier
  }

  ghost function EnrolledOnEvent(w: World, eventType: string, contact: ContactId): World {
    if contact !in w.contacts then w else EnrolledUpTo(w, eventType, contact, |w.campaigns|)
  }

  function ExitedFor(w: World, contact: ContactId, reason: string, now: int): World {
    w.(enrollments := map id | id in w.enrollments ::
         if w.enrollments[id].contact == contact then WithdrawnAt(w.enrollments[id], reason, now) else w.enrollments[id])
  }

  // ---------------------------------------------------------------- drain

  /** One outbox row of a drain: react, then mark it. */
  ghost function DrainedRow(w: World, i: nat, now: int): World
    requires i < |w.outbox|
  {
    var row := w.outbox[i];
    var w' :=
      match row.contact
      case Missing => w
      case Malformed => w
      case Ref(contact) =>
        if row.eventType == DO_NOT_ENGAGE_EVENT then ExitedFor(w, contact, DO_NOT_ENGAGE, now)
        else EnrolledOnEvent(w, row.eventType, contact);
    w'.(outbox := w.outbox[i := row.(drained := true)])
  }

  /** The oldest unmarked rows that no other drain has locked, at most limit of them, from index
      from on. */
  function Batch(outbox: seq<OutboxRow>, locked: set<nat>, from: nat, limit: nat): (batch: seq<nat>)
    requires from <= |outbox|
    ensures |batch| <= limit
    ensures forall k :: 0 <= k < |batch| ==> from <= batch[k] < |outbox| && !outbox[batch[k]].drained && batch[k] !in locked
    decreases |outbox| - from
  {
    if from == |outbox| || limit == 0 then []
    else if outbox[from].drained || from in locked then Batch(outbox, locked, from + 1, limit)
    else [from] + Batch(outbox, locked, from + 1, limit - 1)
  }

  ghost function DrainedRows(w: World, batch: seq<nat>, now: int): (w': World)
    requires forall k :: 0 <= k < |batch| ==> batch[k] < |w.outbox|
    ensures |w'.outbox| == |w.outbox| && w'.contacts == w.contacts
  {
    if batch == [] then w else DrainedRow(DrainedRows(w, batch[..|batch| - 1], now), batch[|batch| - 1], now)
  }

  ghost function Drained(w: World, locked: set<nat>, now: int): World {
    DrainedRows(w, Batch(w.outbox, locked, 0, DRAIN_BATCH_SIZE), now)
  }

  // ---------------------------------------------------------------- steps

  datatype Event =
    | Drain(locked: set<nat>, now: int)
    | Tick(id: EnrollmentId, now: int, sentAt: int, outcome: DripWalk.Outcome)
    | ExitOne(id: EnrollmentId, reason: string, now: int)
    | SetPaused(id: EnrollmentId, paused: bool)
    | EnrollManually(campaign: CampaignId, contact: ContactId)
    | PutContact(contact: ContactId, value: Contact)
    | PutCampaign(campaign: CampaignId, edited: Campaign)
    | AddCampaign(added: Campaign)
    | Suppress(email: string)
    | Emit(row: OutboxRow)

  /** The joins and filters of the claim query that concern campaign and contact. The comparison
      with a NULL status is not true, so such a contact is never claimed. */
  predicate Claimable(w: World, e: Enrollment) {
    && e.campaign < |w.campaigns| && w.campaigns[e.campaign].active
    && e.contact in w.contacts && w.contacts[e.contact].status.Some?
    && w.contacts[e.contact].status.value != DO_NOT_ENGAGE
  }

  ghost function Ticked(w: World, e: Enrollment, now: int, sentAt: int, outcome: DripWalk.Outcome): Enrollment {
    if !Claimable(w, e) then e
    else DripWalk.TickWalk(DripWalk.Walk(e, w.campaigns[e.campaign].steps, []), now, sentAt, outcome).e
  }

  function PausedOr(e: Enrollment, paused: bool): Enrollment {
    if e.state.Active? || e.state.Paused? then e.(state := if paused then Paused else Active) else e
  }

  ghost function Step(w: World, ev: Event): World {
    match ev
    case Drain(locked, now) => Drained(w, locked, now)
    case Tick(id, now, sentAt, outcome) =>
      if id in w.enrollments then w.(enrollments := w.enrollments[id := Ticked(w, w.enrollments[id], now, sentAt, outcome)]) else w
    case ExitOne(id, reason, now) =>
      if id in w.enrollments then w.(enrollments := w.enrollments[id := WithdrawnAt(w.enrollments[id], reason, now)]) else w
    case SetPaused(id, paused) =>
      if id in w.enrollments then w.(enrollments := w.enrollments[id := PausedOr(w.enrollments[id], paused)]) else w
    case EnrollManually(campaign, contact) =>
      if campaign < |w.campaigns| && contact in w.contacts then Enrolled(w, campaign, contact) else w
    case PutContact(contact, value) => w.(contacts := w.contacts[contact := value])
    case PutCampaign(campaign, edited) =>
      if campaign < |w.campaigns| then w.(campaigns := w.campaigns[campaign := edited]) else w
    case AddCampaign(added) => w.(campaigns := w.campaigns + [added])
    case Suppress(email) => w.(suppressed := w.suppressed + {email})
    case Emit(row) => w.(outbox := w.outbox + [row])
  }

  ghost function Run(w: World, events: seq<Event>): World {
    if events == [] then w else Step(Run(w, events[..|events| - 1]), events[|events| - 1])
  }
}
