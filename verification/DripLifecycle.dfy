/** What every run of the drip engine keeps: at most one open enrollment per campaign and contact,
    closed enrollments stay closed, and a contact who must not be engaged is left alone. */
module DripLifecycle {
  import opened Options
  import opened DripSteps
  import opened DripEngine
  import DripWalk

  // ---------------------------------------------------------------- invariants and relations

  ghost predicate UniqueOpen(w: World) {
    forall i, j :: i in w.enrollments && j in w.enrollments && i != j && Open(w.enrollments[j])
                   ==> !OpenFor(w.enrollments[i], w.enrollments[j].campaign, w.enrollments[j].contact)
  }

  ghost predicate Sound(w: World) {
    && (forall id :: id in w.enrollments ==> id < w.next)
    && UniqueOpen(w)
  }

  /** One row over time: identity fixed, nothing happens after it closes. */
  predicate Keeps(e: Enrollment, e': Enrollment) {
    && e'.campaign == e.campaign && e'.contact == e.contact
    && (!Open(e) ==> e' == e)
  }

  ghost predicate Evolves(w: World, w': World) {
    && w.next <= w'.next
    && forall id :: id in w.enrollments ==> id in w'.enrollments && Keeps(w.enrollments[id], w'.enrollments[id])
  }

  lemma {:induction false} EvolvesOnward(a: World, b: World, c: World)
    requires Evolves(a, b) && Evolves(b, c)
    ensures Evolves(a, c)
  {
  }

  /** Rewriting one row by something it Keeps. */
  lemma {:induction false} RowStep(w: World, id: EnrollmentId, e': Enrollment)
    requires Sound(w) && id in w.enrollments && Keeps(w.enrollments[id], e')
    ensures Sound(w.(enrollments := w.enrollments[id := e'])) && Evolves(w, w.(enrollments := w.enrollments[id := e']))
  {
  }

  lemma {:induction false} EnrollStep(w: World, campaign: CampaignId, contact: ContactId)
    requires Sound(w) && campaign < |w.campaigns| && contact in w.contacts
    ensures Sound(Enrolled(w, campaign, contact)) && Evolves(w, Enrolled(w, campaign, contact))
  {
  }

  lemma {:induction false} EnrollNextStep(w: World, earlier: World, campaign: CampaignId, contact: ContactId)
    requires Sound(earlier) && Evolves(w, earlier) && campaign < |earlier.campaigns| && contact in earlier.contacts
    ensures Sound(Enrolled(earlier, campaign, contact)) && Evolves(w, Enrolled(earlier, campaign, contact))
  {
    EnrollStep(earlier, campaign, contact);
    EvolvesOnward(w, earlier, Enrolled(earlier, campaign, contact));
  }

  lemma {:induction false} EnrollUpToStep(w: World, eventType: string, contact: ContactId, n: nat)
    requires Sound(w) && n <= |w.campaigns| && contact in w.contacts
    ensures Sound(EnrolledUpTo(w, eventType, contact, n)) && Evolves(w, EnrolledUpTo(w, eventType, contact, n))
  {
    if n > 0 {
      EnrollUpToStep(w, eventType, contact, n - 1);
      EnrollNextStep(w, EnrolledUpTo(w, eventType, contact, n - 1), n - 1, contact);
    }
  }

  lemma {:induction false} ExitStep(w: World, contact: ContactId, reason: string, now: int)
    requires Sound(w)
    ensures Sound(ExitedFor(w, contact, reason, now)) && Evolves(w, ExitedFor(w, contact, reason, now))
  {
  }

  lemma {:induction false} DrainRowStep(w: World, i: nat, now: int)
    requires Sound(w) && i < |w.outbox|
    ensures Sound(DrainedRow(w, i, now)) && Evolves(w, DrainedRow(w, i, now))
  {
    var row := w.outbox[i];
    if row.contact.Ref? {
      ExitStep(w, row.contact.id, DO_NOT_ENGAGE, now);
      if row.contact.id in w.contacts {
        EnrollUpToStep(w, row.eventType, row.contact.id, |w.campaigns|);
      }
    }
  }

  lemma {:induction false} DrainRowsStep(w: World, batch: seq<nat>, now: int)
    requires Sound(w) && forall k :: 0 <= k < |batch| ==> batch[k] < |w.outbox|
    ensures Sound(DrainedRows(w, batch, now)) && Evolves(w, DrainedRows(w, batch, now))
  {
    if batch != [] {
      var earlier := DrainedRows(w, batch[..|batch| - 1], now);
      DrainRowsStep(w, batch[..|batch| - 1], now);
      DrainRowStep(earlier, batch[|batch| - 1], now);
      EvolvesOnward(w, earlier, DrainedRows(w, batch, now));
    }
  }

  lemma {:induction false} TickKeeps(w: World, e: Enrollment, now: int, sentAt: int, outcome: DripWalk.Outcome)
    ensures Keeps(e, Ticked(w, e, now, sentAt, outcome))
  {
  }

  lemma {:induction false} StepKeepsSound(w: World, ev: Event)
    requires Sound(w)
    ensures Sound(Step(w, ev)) && Evolves(w, Step(w, ev))
  {
    match ev
    case Drain(locked, now) => DrainRowsStep(w, Batch(w.outbox, locked, 0, DRAIN_BATCH_SIZE), now);
    case Tick(id, now, sentAt, outcome) =>
      if id in w.enrollments {
        TickKeeps(w, w.enrollments[id], now, sentAt, outcome);
        RowStep(w, id, Ticked(w, w.enrollments[id], now, sentAt, outcome));
      }
    case ExitOne(id, reason, now) =>
      if id in w.enrollments {
        RowStep(w, id, WithdrawnAt(w.enrollments[id], reason, now));
      }
    case SetPaused(id, paused) =>
      if id in w.enrollments {
        RowStep(w, id, PausedOr(w.enrollments[id], paused));
      }
    case EnrollManually(campaign, contact) =>
      if campaign < |w.campaigns| && contact in w.contacts {
        EnrollStep(w, campaign, contact);
      }
    case _ =>
  }

  /** Over every run, two open enrollments never share a campaign and a contact, and an enrollment
      that was completed or exited at the start of the run is the very same row at its end. */
  lemma {:induction false} OneOpenEnrollmentAndNoReopening(w: World, events: seq<Event>)
    requires Sound(w)
    ensures Sound(Run(w, events)) && Evolves(w, Run(w, events))
  {
    if events != [] {
      var before := Run(w, events[..|events| - 1]);
      OneOpenEnrollmentAndNoReopening(w, events[..|events| - 1]);
      StepKeepsSound(before, events[|events| - 1]);
      EvolvesOnward(w, before, Run(w, events));
    }
  }

  /** A new enrollment starts at the first step, which is due at once whatever its delay, and has every
      step of the campaign before it, each once and ascending. */
  lemma {:induction false} NewEnrollmentPlansEveryStep(w: World, campaign: CampaignId, contact: ContactId, now: int)
    requires campaign < |w.campaigns|
    ensures var e, steps := NewEnrollment(w, campaign, contact), w.campaigns[campaign].steps;
            && DueStep(e, steps, now) == NextFrom(steps, 0)
            && DripWalk.Plan(e, steps) == DripWalk.Ascending(steps, 0)
            && forall q :: q in steps <==> q in DripWalk.Plan(e, steps)
  {
    var e, steps := NewEnrollment(w, campaign, contact), w.campaigns[campaign].steps;
    DripWalk.AscendingLists(steps, 0);
    match NextFrom(steps, 0)
    case None =>
    case Some(p) =>
      NextIsUnique(steps, p, p);
      DripWalk.AscendingSkips(steps, 0, p);
  }

  // ---------------------------------------------------------------- a contact to be left alone

  ghost predicate NoneOpen(w: World, contact: ContactId) {
    forall id :: id in w.enrollments && w.enrollments[id].contact == contact ==> !Open(w.enrollments[id])
  }

  /** Neither a row more, nor a row less, nor a row changed, for this contact. */
  ghost predicate SameFor(w: World, w': World, contact: ContactId) {
    forall id :: (id in w.enrollments && w.enrollments[id].contact == contact)
              || (id in w'.enrollments && w'.enrollments[id].contact == contact)
             ==> id in w.enrollments && id in w'.enrollments && w'.enrollments[id] == w.enrollments[id]
  }

  lemma {:induction false} SameForOnward(a: World, b: World, c: World, contact: ContactId)
    requires SameFor(a, b, contact) && SameFor(b, c, contact)
    ensures SameFor(a, c, contact)
  {
  }

  lemma {:induction false} SameForKeepsNoneOpen(w: World, w': World, contact: ContactId)
    requires NoneOpen(w, contact) && SameFor(w, w', contact)
    ensures NoneOpen(w', contact)
  {
  }

  lemma {:induction false} EnrollUpToIsQuiet(w: World, eventType: string, other: ContactId, n: nat, contact: ContactId)
    requires Sound(w) && n <= |w.campaigns| && other in w.contacts && DoNotEngage(w, contact)
    ensures SameFor(w, EnrolledUpTo(w, eventType, other, n), contact)
  {
    if n > 0 {
      var earlier := EnrolledUpTo(w, eventType, other, n - 1);
      EnrollUpToIsQuiet(w, eventType, other, n - 1, contact);
      EnrollUpToStep(w, eventType, other, n - 1);
      EnrollIsQuiet(earlier, n - 1, other, contact);
      SameForOnward(w, earlier, Enrolled(earlier, n - 1, other), contact);
    }
  }

  lemma {:induction false} EnrollIsQuiet(w: World, campaign: CampaignId, other: ContactId, contact: ContactId)
    requires Sound(w) && campaign < |w.campaigns| && other in w.contacts && DoNotEngage(w, contact)
    ensures SameFor(w, Enrolled(w, campaign, other), contact)
  {
  }

  lemma {:induction false} DrainRowIsQuiet(w: World, i: nat, now: int, contact: ContactId)
    requires Sound(w) && i < |w.outbox| && DoNotEngage(w, contact) && NoneOpen(w, contact)
    ensures SameFor(w, DrainedRow(w, i, now), contact)
  {
    var row := w.outbox[i];
    if row.contact.Ref? && row.contact.id in w.contacts {
      EnrollUpToIsQuiet(w, row.eventType, row.contact.id, |w.campaigns|, contact);
    }
  }

  lemma {:induction false} DrainRowsAreQuiet(w: World, batch: seq<nat>, now: int, contact: ContactId)
    requires Sound(w) && DoNotEngage(w, contact) && NoneOpen(w, contact)
    requires forall k :: 0 <= k < |batch| ==> batch[k] < |w.outbox|
    ensures SameFor(w, DrainedRows(w, batch, now), contact)
  {
    if batch != [] {
      var earlier := DrainedRows(w, batch[..|batch| - 1], now);
      DrainRowsAreQuiet(w, batch[..|batch| - 1], now, contact);
      DrainRowsStep(w, batch[..|batch| - 1], now);
      SameForKeepsNoneOpen(w, earlier, contact);
      DrainRowIsQuiet(earlier, batch[|batch| - 1], now, contact);
      SameForOnward(w, earlier, DrainedRows(w, batch, now), contact);
    }
  }

  lemma {:induction false} StepIsQuiet(w: World, ev: Event, contact: ContactId)
    requires Sound(w) && DoNotEngage(w, contact) && NoneOpen(w, contact)
    ensures SameFor(w, Step(w, ev), contact)
  {
    match ev
    case Drain(locked, now) => DrainRowsAreQuiet(w, Batch(w.outbox, locked, 0, DRAIN_BATCH_SIZE), now, contact);
    case Tick(id, now, sentAt, outcome) =>
      if id in w.enrollments {
        TickKeeps(w, w.enrollments[id], now, sentAt, outcome);
      }
    case EnrollManually(campaign, other) =>
      if campaign < |w.campaigns| && other in w.contacts {
        EnrollIsQuiet(w, campaign, other, contact);
      }
    case _ =>
  }

  /** The status holds before every step of the run. */
  ghost predicate StaysDoNotEngage(w: World, events: seq<Event>, contact: ContactId) {
    forall k :: 0 <= k < |events| ==> DoNotEngage(Run(w, events[..k]), contact)
  }

  lemma {:induction false} QuietWhileDoNotEngage(w: World, events: seq<Event>, contact: ContactId)
    requires Sound(w) && NoneOpen(w, contact) && StaysDoNotEngage(w, events, contact)
    ensures SameFor(w, Run(w, events), contact) && NoneOpen(Run(w, events), contact)
  {
    if events != [] {
      var init := events[..|events| - 1];
      var before := Run(w, init);
      assert forall k :: 0 <= k < |init| ==> init[..k] == events[..k];
      QuietWhileDoNotEngage(w, init, contact);
      OneOpenEnrollmentAndNoReopening(w, init);
      StepIsQuiet(before, events[|events| - 1], contact);
      SameForOnward(w, before, Run(w, events), contact);
      SameForKeepsNoneOpen(w, Run(w, events), contact);
    }
  }

  // ---------------------------------------------------------------- once the event is drained

  /** A drain takes the oldest rows first: a waiting row it leaves behind is younger than all it takes,
      and it leaves one behind only when the batch is full. */
  lemma {:induction false} BatchTakesTheOldest(outbox: seq<OutboxRow>, locked: set<nat>, from: nat, limit: nat, i: nat)
    requires from <= i < |outbox| && !outbox[i].drained && i !in locked
    requires i !in Batch(outbox, locked, from, limit)
    ensures |Batch(outbox, locked, from, limit)| == limit
    ensures forall k :: 0 <= k < limit ==> Batch(outbox, locked, from, limit)[k] < i
    decreases |outbox| - from
  {
    if limit > 0 {
      if outbox[from].drained || from in locked {
        BatchTakesTheOldest(outbox, locked, from + 1, limit, i);
      } else {
        var rest := Batch(outbox, locked, from + 1, limit - 1);
        assert Batch(outbox, locked, from, limit)[0] == from;
        assert Batch(outbox, locked, from, limit)[1..] == rest;
        assert i != from && i !in rest;
        BatchTakesTheOldest(outbox, locked, from + 1, limit - 1, i);
      }
    }
  }

  /** Row i of the outbox asks for this contact to be left alone. */
  predicate AsksToLeave(w: World, i: nat, contact: ContactId) {
    i < |w.outbox| && w.outbox[i].eventType == DO_NOT_ENGAGE_EVENT && w.outbox[i].contact == Ref(contact)
  }

  lemma {:induction false} ExitLeavesNoneOpen(w: World, i: nat, now: int, contact: ContactId)
    requires AsksToLeave(w, i, contact)
    ensures NoneOpen(DrainedRow(w, i, now), contact)
  {
  }

  /** What an outbox row says does not change when rows are marked. */
  lemma {:induction false} RowsKeepTheirEvent(w: World, batch: seq<nat>, now: int)
    requires forall k :: 0 <= k < |batch| ==> batch[k] < |w.outbox|
    ensures var w' := DrainedRows(w, batch, now);
            forall i :: 0 <= i < |w.outbox| ==> w'.outbox[i] == w.outbox[i].(drained := w.outbox[i].drained || i in batch)
  {
    if batch != [] {
      RowsKeepTheirEvent(w, batch[..|batch| - 1], now);
      assert batch == batch[..|batch| - 1] + [batch[|batch| - 1]];
    }
  }

  lemma {:induction false} DrainedBatchLeavesNoneOpen(w: World, batch: seq<nat>, now: int, i: nat, contact: ContactId)
    requires Sound(w) && DoNotEngage(w, contact) && AsksToLeave(w, i, contact) && i in batch
    requires forall k :: 0 <= k < |batch| ==> batch[k] < |w.outbox|
    ensures NoneOpen(DrainedRows(w, batch, now), contact)
  {
    var init, last := batch[..|batch| - 1], batch[|batch| - 1];
    var earlier := DrainedRows(w, init, now);
    DrainRowsStep(w, init, now);
    RowsKeepTheirEvent(w, init, now);
    if last == i {
      ExitLeavesNoneOpen(earlier, i, now, contact);
    } else {
      DrainedBatchLeavesNoneOpen(w, init, now, i, contact);
      DrainRowIsQuiet(earlier, last, now, contact);
      SameForKeepsNoneOpen(earlier, DrainedRow(earlier, last, now), contact);
    }
  }

  lemma {:induction false} RunInParts(w: World, a: seq<Event>, b: seq<Event>)
    ensures Run(w, a + b) == Run(Run(w, a), b)
  {
    if b == [] {
      assert a + b == a;
    } else {
      RunInParts(w, a, b[..|b| - 1]);
      assert (a + b)[..|a + b| - 1] == a + b[..|b| - 1];
    }
  }

  /** For every run: when a drain picks up a do_not_engage event of a contact who is do_not_engage
      by then, the contact has no open enrollment right after that drain, and as long as the status
      holds no enrollment of the contact is created, claimed or changed in any way. Drains are single
      steps here; DripOverlapExit has what remains of this when they overlap. */
  lemma {:induction false} DrainedDoNotEngageIsFinal(w: World, a: seq<Event>, locked: set<nat>, now: int, b: seq<Event>, i: nat, contact: ContactId)
    requires Sound(w)
    requires DoNotEngage(Run(w, a), contact) && AsksToLeave(Run(w, a), i, contact)
    requires i in Batch(Run(w, a).outbox, locked, 0, DRAIN_BATCH_SIZE)
    requires StaysDoNotEngage(Run(w, a + [Drain(locked, now)]), b, contact)
    ensures NoneOpen(Run(w, a + [Drain(locked, now)]), contact)
    ensures SameFor(Run(w, a + [Drain(locked, now)]), Run(w, a + [Drain(locked, now)] + b), contact)
    ensures NoneOpen(Run(w, a + [Drain(locked, now)] + b), contact)
  {
    var before := Run(w, a);
    var through := a + [Drain(locked, now)];
    assert through[..|through| - 1] == a;
    OneOpenEnrollmentAndNoReopening(w, a);
    OneOpenEnrollmentAndNoReopening(w, through);
    DrainedBatchLeavesNoneOpen(before, Batch(before.outbox, locked, 0, DRAIN_BATCH_SIZE), now, i, contact);
    QuietWhileDoNotEngage(Run(w, through), b, contact);
    RunInParts(w, through, b);
  }

  // ---------------------------------------------------------------- a contact without a status

  /** The claim query sees neither do_not_engage nor NULL. */
  predicate NeverClaimed(w: World, contact: ContactId) {
    contact in w.contacts && (w.contacts[contact].status.None? || w.contacts[contact].status.value == DO_NOT_ENGAGE)
  }

  ghost predicate Unsent(w: World, contact: ContactId) {
    forall id :: id in w.enrollments && w.enrollments[id].contact == contact ==> w.enrollments[id].lastSentAt.None?
  }

  lemma {:induction false} EnrollingSendsNothing(w: World, eventType: string, other: ContactId, n: nat, contact: ContactId)
    requires n <= |w.campaigns| && other in w.contacts && Unsent(w, contact)
    ensures Unsent(EnrolledUpTo(w, eventType, other, n), contact)
  {
    if n > 0 {
      EnrollingSendsNothing(w, eventType, other, n - 1, contact);
    }
  }

  lemma {:induction false} DrainingSendsNothing(w: World, batch: seq<nat>, now: int, contact: ContactId)
    requires Unsent(w, contact) && forall k :: 0 <= k < |batch| ==> batch[k] < |w.outbox|
    ensures Unsent(DrainedRows(w, batch, now), contact)
  {
    if batch != [] {
      var earlier := DrainedRows(w, batch[..|batch| - 1], now);
      DrainingSendsNothing(w, batch[..|batch| - 1], now, contact);
      var row := earlier.outbox[batch[|batch| - 1]];
      if row.contact.Ref? && row.contact.id in earlier.contacts {
        EnrollingSendsNothing(earlier, row.eventType, row.contact.id, |earlier.campaigns|, contact);
      }
    }
  }

  lemma {:induction false} StepSendsNothing(w: World, ev: Event, contact: ContactId)
    requires Unsent(w, contact) && NeverClaimed(w, contact) && !ev.Drain?
    ensures Unsent(Step(w, ev), contact)
  {
  }

  /** Nothing is ever sent to a contact whose status is NULL or do_not_engage throughout the run. */
  lemma {:induction false} NothingIsSentUnclaimed(w: World, events: seq<Event>, contact: ContactId)
    requires Unsent(w, contact)
    requires forall k :: 0 <= k < |events| ==> NeverClaimed(Run(w, events[..k]), contact)
    ensures Unsent(Run(w, events), contact)
  {
    if events != [] {
      var init, ev := events[..|events| - 1], events[|events| - 1];
      var before := Run(w, init);
      assert forall k :: 0 <= k < |init| ==> init[..k] == events[..k];
      NothingIsSentUnclaimed(w, init, contact);
      if ev.Drain? {
        DrainingSendsNothing(before, Batch(before.outbox, ev.locked, 0, DRAIN_BATCH_SIZE), ev.now, contact);
      } else {
        StepSendsNothing(before, ev, contact);
      }
    }
  }

  /** Such a contact with a NULL status is enrolled all the same: enrolling only looks for
      do_not_engage. */
  lemma {:induction false} NullStatusIsEnrolledButNeverClaimed(w: World, campaign: CampaignId, contact: ContactId)
    requires Sound(w) && campaign < |w.campaigns| && contact in w.contacts && w.contacts[contact].status.None?
    requires !Suppressed(w, contact)
    ensures HasOpen(Enrolled(w, campaign, contact), campaign, contact)
    ensures NeverClaimed(Enrolled(w, campaign, contact), contact)
  {
    if !HasOpen(w, campaign, contact) {
      var w' := Enrolled(w, campaign, contact);
      assert OpenFor(w'.enrollments[w.next], campaign, contact);
    }
  }
}
