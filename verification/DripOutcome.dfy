/** What events, drains and ticks do to each enrollment, in terms of the tables alone. */
module DripOutcome {
  import opened Options
  import opened DripSteps
  import opened DripEngine
  import DripWalk

  // ---------------------------------------------------------------- enrolling

  /** The contact is gone, is not to be engaged, or has an email on the suppression list. */
  predicate LeftOut(w: World, contact: ContactId) {
    || contact !in w.contacts
    || w.contacts[contact].status == Some("do_not_engage")
    || (w.contacts[contact].email.Some? && w.contacts[contact].email.value != "" && w.contacts[contact].email.value in w.suppressed)
  }

  predicate Concerns(w: World, campaign: CampaignId, eventType: string) {
    campaign < |w.campaigns| && w.campaigns[campaign].active && w.campaigns[campaign].trigger == eventType
  }

  predicate Running(w: World, campaign: CampaignId, contact: ContactId) {
    exists id :: id in w.enrollments && w.enrollments[id].campaign == campaign && w.enrollments[id].contact == contact
                 && w.enrollments[id].state in {Pending, Active, Paused}
  }

  /** At the first step of the campaign, or at zero when it has none. */
  predicate AtTheFirst(steps: Steps, position: int) {
    if steps == map[] then position == 0 else position in steps && forall q :: q in steps ==> position <= q
  }

  /** A row as an enrollment begins. */
  predicate Fresh(e: Enrollment, w: World, campaign: CampaignId, contact: ContactId)
    requires campaign < |w.campaigns|
  {
    && e.campaign == campaign && e.contact == contact && e.version == w.campaigns[campaign].version
    && AtTheFirst(w.campaigns[campaign].steps, e.position)
    && e.state == Active && e.lastSentAt == None && e.exitedAt == None && e.exitReason == None && e.log == []
  }

  type Rows = map<EnrollmentId, Enrollment>

  predicate IsNew(rows: Rows, rows': Rows, id: EnrollmentId) {
    id in rows' && id !in rows
  }

  ghost predicate RowsKept(rows: Rows, rows': Rows) {
    forall id :: id in rows ==> id in rows' && rows'[id] == rows[id]
  }

  ghost predicate HasNew(rows: Rows, rows': Rows, campaign: CampaignId) {
    exists id :: IsNew(rows, rows', id) && rows'[id].campaign == campaign
  }

  /** One new row for each of these campaigns, and for no other. */
  ghost predicate OneForEach(rows: Rows, rows': Rows, campaigns: set<CampaignId>) {
    && (forall id :: IsNew(rows, rows', id) ==> rows'[id].campaign in campaigns)
    && (forall c :: c in campaigns ==> HasNew(rows, rows', c))
    && (forall i, j :: IsNew(rows, rows', i) && IsNew(rows, rows', j) && rows'[i].campaign == rows'[j].campaign ==> i == j)
  }

  /** The campaigns below n in which the event begins an enrollment: those it concerns, unless the contact is
      left out, where none is running. */
  function Beginning(w: World, eventType: string, contact: ContactId, n: nat): set<CampaignId> {
    set c | 0 <= c < n && Concerns(w, c, eventType) && !LeftOut(w, contact) && !Running(w, c, contact)
  }

  /** An enrollment is begun in exactly these campaigns, one in each, and no other row changes. */
  ghost predicate Begun(w: World, rows': Rows, eventType: string, contact: ContactId, n: nat)
    requires n <= |w.campaigns|
  {
    && RowsKept(w.enrollments, rows')
    && OneForEach(w.enrollments, rows', Beginning(w, eventType, contact, n))
    && forall id :: IsNew(w.enrollments, rows', id) && rows'[id].campaign < |w.campaigns| ==>
         Fresh(rows'[id], w, rows'[id].campaign, contact)
  }

  lemma {:induction false} NewIsFresh(w: World, campaign: CampaignId, contact: ContactId)
    requires campaign < |w.campaigns|
    ensures Fresh(NewEnrollment(w, campaign, contact), w, campaign, contact)
  {
    var steps := w.campaigns[campaign].steps;
    if p :| p in steps {
      assert NextFrom(steps, 0).Some?;
    }
  }

  lemma {:induction false} RunningIsOpen(w: World, campaign: CampaignId, contact: ContactId)
    ensures HasOpen(w, campaign, contact) <==> Running(w, campaign, contact)
  {
    if HasOpen(w, campaign, contact) {
      var id :| id in w.enrollments && OpenFor(w.enrollments[id], campaign, contact);
    }
    if Running(w, campaign, contact) {
      var id :| id in w.enrollments && w.enrollments[id].campaign == campaign && w.enrollments[id].contact == contact
        && w.enrollments[id].state in {Pending, Active, Paused};
      assert OpenFor(w.enrollments[id], campaign, contact);
    }
  }

  lemma {:induction false} EnrolledRows(w: World, campaign: CampaignId, contact: ContactId)
    requires campaign < |w.campaigns| && contact in w.contacts
    ensures Enrolled(w, campaign, contact) ==
      if LeftOut(w, contact) || Running(w, campaign, contact) then w
      else w.(enrollments := w.enrollments[w.next := NewEnrollment(w, campaign, contact)], next := w.next + 1)
    ensures Fresh(NewEnrollment(w, campaign, contact), w, campaign, contact)
  {
    NewIsFresh(w, campaign, contact);
    RunningIsOpen(w, campaign, contact);
  }

  /** One campaign: a row is added exactly when the contact is not left out and none is running. */
  lemma {:induction false} EnrolledTells(w: World, campaign: CampaignId, contact: ContactId)
    requires campaign < |w.campaigns| && contact in w.contacts && FreshIds(w)
    ensures var w' := Enrolled(w, campaign, contact);
      && FreshIds(w') && RowsKept(w.enrollments, w'.enrollments)
      && (LeftOut(w, contact) || Running(w, campaign, contact) ==> w' == w)
      && (!LeftOut(w, contact) && !Running(w, campaign, contact) ==>
            && IsNew(w.enrollments, w'.enrollments, w.next) && Fresh(w'.enrollments[w.next], w, campaign, contact)
            && forall id :: IsNew(w.enrollments, w'.enrollments, id) ==> id == w.next)
  {
    EnrolledRows(w, campaign, contact);
  }

  /** What is running in a campaign that has not reacted yet is what was running at the start. */
  lemma {:induction false} RunningAsBefore(w: World, mid: World, eventType: string, contact: ContactId, n: nat)
    requires n <= |w.campaigns| && Begun(w, mid.enrollments, eventType, contact, n)
    ensures Running(mid, n, contact) <==> Running(w, n, contact)
  {
    if Running(mid, n, contact) {
      var id :| id in mid.enrollments && mid.enrollments[id].campaign == n && mid.enrollments[id].contact == contact
        && mid.enrollments[id].state in {Pending, Active, Paused};
      assert !IsNew(w.enrollments, mid.enrollments, id);
    }
    if Running(w, n, contact) {
      var id :| id in w.enrollments && w.enrollments[id].campaign == n && w.enrollments[id].contact == contact
        && w.enrollments[id].state in {Pending, Active, Paused};
      assert id in mid.enrollments && mid.enrollments[id] == w.enrollments[id];
    }
  }

  lemma {:induction false} StillHasNew(rows: Rows, mid: Rows, id: EnrollmentId, e: Enrollment, campaign: CampaignId)
    requires id !in mid && HasNew(rows, mid, campaign)
    ensures HasNew(rows, mid[id := e], campaign)
  {
    var i :| IsNew(rows, mid, i) && mid[i].campaign == campaign;
    assert IsNew(rows, mid[id := e], i);
  }

  lemma {:induction false} OneMoreForEach(rows: Rows, mid: Rows, campaigns: set<CampaignId>, id: EnrollmentId, e: Enrollment)
    requires RowsKept(rows, mid) && OneForEach(rows, mid, campaigns) && id !in mid && e.campaign !in campaigns
    ensures RowsKept(rows, mid[id := e]) && OneForEach(rows, mid[id := e], campaigns + {e.campaign})
  {
    var rows' := mid[id := e];
    assert forall i :: IsNew(rows, rows', i) <==> i == id || IsNew(rows, mid, i);
    assert IsNew(rows, rows', id);
    forall c | c in campaigns ensures HasNew(rows, rows', c) {
      StillHasNew(rows, mid, id, e, c);
    }
  }

  /** The campaign in turn begins an enrollment. */
  lemma {:induction false} OneMoreBegun(w: World, mid: Rows, eventType: string, contact: ContactId, n: nat, id: EnrollmentId, e: Enrollment)
    requires n < |w.campaigns| && Concerns(w, n, eventType) && Begun(w, mid, eventType, contact, n)
    requires !LeftOut(w, contact) && !Running(w, n, contact) && Fresh(e, w, n, contact) && id !in mid
    ensures Begun(w, mid[id := e], eventType, contact, n + 1)
  {
    OneMoreForEach(w.enrollments, mid, Beginning(w, eventType, contact, n), id, e);
    assert Beginning(w, eventType, contact, n + 1) == Beginning(w, eventType, contact, n) + {n};
    forall i | IsNew(w.enrollments, mid[id := e], i) ensures i == id || IsNew(w.enrollments, mid, i) {
    }
  }

  /** Or it has no reason to. */
  lemma {:induction false} NoneBegun(w: World, mid: Rows, eventType: string, contact: ContactId, n: nat)
    requires n < |w.campaigns| && Begun(w, mid, eventType, contact, n)
    requires !Concerns(w, n, eventType) || LeftOut(w, contact) || Running(w, n, contact)
    ensures Begun(w, mid, eventType, contact, n + 1)
  {
    assert Beginning(w, eventType, contact, n + 1) == Beginning(w, eventType, contact, n);
  }

  lemma {:induction false} OneMoreCampaign(w: World, mid: World, w': World, eventType: string, contact: ContactId, n: nat)
    requires n < |w.campaigns| && contact in w.contacts && FreshIds(mid)
    requires mid.campaigns == w.campaigns && mid.contacts == w.contacts && mid.suppressed == w.suppressed
    requires Begun(w, mid.enrollments, eventType, contact, n)
    requires w' == if Concerns(w, n, eventType) then Enrolled(mid, n, contact) else mid
    ensures Begun(w, w'.enrollments, eventType, contact, n + 1)
  {
    if Concerns(w, n, eventType) && !LeftOut(w, contact) && !Running(w, n, contact) {
      RunningAsBefore(w, mid, eventType, contact, n);
      EnrolledRows(mid, n, contact);
      OneMoreBegun(w, mid.enrollments, eventType, contact, n, mid.next, NewEnrollment(mid, n, contact));
    } else {
      if Concerns(w, n, eventType) {
        RunningAsBefore(w, mid, eventType, contact, n);
        EnrolledRows(mid, n, contact);
      }
      NoneBegun(w, mid.enrollments, eventType, contact, n);
    }
  }

  lemma {:induction false} ReactedOnceMore(w: World, eventType: string, contact: ContactId, n: nat)
    requires n < |w.campaigns| && contact in w.contacts
    ensures var mid := EnrolledUpTo(w, eventType, contact, n);
      EnrolledUpTo(w, eventType, contact, n + 1) ==
        if Concerns(w, n, eventType) then Enrolled(mid, n, contact) else mid
  {
  }

  lemma {:induction false} NothingBegun(w: World, eventType: string, contact: ContactId)
    ensures Begun(w, w.enrollments, eventType, contact, 0)
  {
    assert Beginning(w, eventType, contact, 0) == {};
  }

  lemma {:induction false} IdsStayFresh(w: World, eventType: string, contact: ContactId, n: nat)
    requires n <= |w.campaigns| && contact in w.contacts && FreshIds(w)
    ensures FreshIds(EnrolledUpTo(w, eventType, contact, n))
  {
    if n > 0 {
      IdsStayFresh(w, eventType, contact, n - 1);
    }
  }

  lemma {:induction false} BegunUpTo(w: World, w': World, eventType: string, contact: ContactId, n: nat)
    requires n <= |w.campaigns| && contact in w.contacts && FreshIds(w) && w' == EnrolledUpTo(w, eventType, contact, n)
    ensures Begun(w, w'.enrollments, eventType, contact, n)
    decreases n
  {
    if n == 0 {
      NothingBegun(w, eventType, contact);
    } else {
      var mid := EnrolledUpTo(w, eventType, contact, n - 1);
      BegunUpTo(w, mid, eventType, contact, n - 1);
      IdsStayFresh(w, eventType, contact, n - 1);
      ReactedOnceMore(w, eventType, contact, n - 1);
      OneMoreCampaign(w, mid, w', eventType, contact, n - 1);
    }
  }

  lemma {:induction false} UnknownBeginsNothing(w: World, eventType: string, contact: ContactId)
    requires contact !in w.contacts
    ensures Begun(w, w.enrollments, eventType, contact, |w.campaigns|)
  {
    assert Beginning(w, eventType, contact, |w.campaigns|) == {};
  }

  /** The enrollments begun by an event, exactly. */
  lemma {:induction false} EventBeginsExactly(w: World, eventType: string, contact: ContactId)
    requires FreshIds(w)
    ensures FreshIds(EnrolledOnEvent(w, eventType, contact))
    ensures Begun(w, EnrolledOnEvent(w, eventType, contact).enrollments, eventType, contact, |w.campaigns|)
  {
    if contact in w.contacts {
      BegunUpTo(w, EnrolledUpTo(w, eventType, contact, |w.campaigns|), eventType, contact, |w.campaigns|);
      IdsStayFresh(w, eventType, contact, |w.campaigns|);
    } else {
      UnknownBeginsNothing(w, eventType, contact);
    }
  }

  // ---------------------------------------------------------------- exiting

  predicate ExitsWith(e: Enrollment, e': Enrollment, reason: string, now: int) {
    && e.state in {Pending, Active, Paused}
    && e' == e.(state := Exited, exitedAt := Some(now), exitReason := Some(reason), log := e.log + [LogEntry("exited", reason)])
  }

  /** Exiting a contact ends exactly its open enrollments, with this reason and time, and touches nothing else. */
  lemma {:induction false} ExitTells(w: World, contact: ContactId, reason: string, now: int)
    ensures var w' := ExitedFor(w, contact, reason, now);
      && w' == w.(enrollments := w'.enrollments) && w'.enrollments.Keys == w.enrollments.Keys
      && forall id :: id in w.enrollments ==>
           if w.enrollments[id].contact == contact && w.enrollments[id].state in {Pending, Active, Paused}
           then ExitsWith(w.enrollments[id], w'.enrollments[id], reason, now)
           else w'.enrollments[id] == w.enrollments[id]
  {
  }

  // ---------------------------------------------------------------- draining

  predicate AsksToLeave(row: OutboxRow, contact: ContactId) {
    row.eventType == "jp.adopt.v1.contact.do_not_engage" && row.contact == Ref(contact)
  }

  /** Why an enrollment that one row of a drain begins is there. */
  predicate Triggered(w: World, row: OutboxRow, e: Enrollment) {
    && row.eventType != "jp.adopt.v1.contact.do_not_engage" && row.contact == Ref(e.contact)
    && Concerns(w, e.campaign, row.eventType) && !LeftOut(w, e.contact)
  }

  /** What became of an enrollment that one row of a drain found. */
  predicate LeftOrExited(e: Enrollment, e': Enrollment, row: OutboxRow, now: int) {
    if AsksToLeave(row, e.contact) && e.state in {Pending, Active, Paused} then ExitsWith(e, e', "do_not_engage", now) else e' == e
  }

  /** What one row does: nothing, or begin the enrollments of its event, or end those of its contact. */
  ghost predicate RowDid(w: World, w': World, row: OutboxRow, now: int) {
    && w'.contacts == w.contacts && w'.campaigns == w.campaigns && w'.suppressed == w.suppressed
    && w.enrollments.Keys <= w'.enrollments.Keys
    && (forall id :: IsNew(w.enrollments, w'.enrollments, id) ==> Triggered(w, row, w'.enrollments[id]))
    && (forall id :: id in w.enrollments ==> LeftOrExited(w.enrollments[id], w'.enrollments[id], row, now))
  }

  lemma {:induction false} DrainedRowTells(w: World, i: nat, now: int)
    requires i < |w.outbox| && FreshIds(w)
    ensures FreshIds(DrainedRow(w, i, now)) && RowDid(w, DrainedRow(w, i, now), w.outbox[i], now)
    ensures DrainedRow(w, i, now).outbox == w.outbox[i := w.outbox[i].(drained := true)]
  {
    var row := w.outbox[i];
    if row.contact.Ref? {
      if row.eventType == "jp.adopt.v1.contact.do_not_engage" {
        ExitTells(w, row.contact.id, "do_not_engage", now);
      } else {
        EventBeginsExactly(w, row.eventType, row.contact.id);
      }
    }
  }

  ghost predicate TriggeredByOne(w: World, rows: seq<nat>, e: Enrollment)
    requires forall i :: i in rows ==> i < |w.outbox|
  {
    exists i :: i in rows && Triggered(w, w.outbox[i], e)
  }

  ghost predicate LeftOrExitedByOne(w: World, rows: seq<nat>, e: Enrollment, e': Enrollment, now: int)
    requires forall i :: i in rows ==> i < |w.outbox|
  {
    e' == e || (ExitsWith(e, e', "do_not_engage", now) && exists i :: i in rows && AsksToLeave(w.outbox[i], e.contact))
  }

  /** What the rows of a drain do together. An enrollment begun by an earlier row may be ended by a later one. */
  ghost predicate RowsDid(w: World, w': World, rows: seq<nat>, now: int)
    requires forall i :: i in rows ==> i < |w.outbox|
  {
    && w'.contacts == w.contacts && w'.campaigns == w.campaigns && w'.suppressed == w.suppressed
    && w.enrollments.Keys <= w'.enrollments.Keys
    && (forall id :: IsNew(w.enrollments, w'.enrollments, id) ==> TriggeredByOne(w, rows, w'.enrollments[id]))
    && (forall id :: id in w.enrollments ==> LeftOrExitedByOne(w, rows, w.enrollments[id], w'.enrollments[id], now))
  }

  lemma {:induction false} StillTriggered(w: World, rows: seq<nat>, i: nat, e: Enrollment, e': Enrollment, now: int)
    requires i < |w.outbox| && forall j :: j in rows ==> j < |w.outbox|
    requires TriggeredByOne(w, rows, e) && LeftOrExited(e, e', w.outbox[i], now)
    ensures TriggeredByOne(w, rows + [i], e')
  {
    var j :| j in rows && Triggered(w, w.outbox[j], e);
    assert j in rows + [i] && Triggered(w, w.outbox[j], e');
  }

  lemma {:induction false} StillLeftOrExited(w: World, rows: seq<nat>, i: nat, e: Enrollment, mid: Enrollment, e': Enrollment, now: int)
    requires i < |w.outbox| && forall j :: j in rows ==> j < |w.outbox|
    requires LeftOrExitedByOne(w, rows, e, mid, now) && LeftOrExited(mid, e', w.outbox[i], now)
    ensures LeftOrExitedByOne(w, rows + [i], e, e', now)
  {
    assert i in rows + [i] && forall j :: j in rows ==> j in rows + [i];
  }

  lemma {:induction false} OneMoreRowDid(w: World, mid: World, w': World, rows: seq<nat>, i: nat, now: int)
    requires i < |w.outbox| && forall j :: j in rows ==> j < |w.outbox|
    requires RowsDid(w, mid, rows, now) && RowDid(mid, w', w.outbox[i], now)
    ensures RowsDid(w, w', rows + [i], now)
  {
    forall id | IsNew(w.enrollments, w'.enrollments, id) ensures TriggeredByOne(w, rows + [i], w'.enrollments[id]) {
      if IsNew(w.enrollments, mid.enrollments, id) {
        StillTriggered(w, rows, i, mid.enrollments[id], w'.enrollments[id], now);
      } else {
        assert IsNew(mid.enrollments, w'.enrollments, id) && i in rows + [i];
        assert Triggered(w, w.outbox[i], w'.enrollments[id]);
      }
    }
    forall id | id in w.enrollments ensures LeftOrExitedByOne(w, rows + [i], w.enrollments[id], w'.enrollments[id], now) {
      StillLeftOrExited(w, rows, i, w.enrollments[id], mid.enrollments[id], w'.enrollments[id], now);
    }
  }

  lemma {:induction false} RowsTell(w: World, batch: seq<nat>, now: int)
    requires FreshIds(w) && forall k :: 0 <= k < |batch| ==> batch[k] < |w.outbox|
    ensures var w' := DrainedRows(w, batch, now);
      && FreshIds(w') && RowsDid(w, w', batch, now)
      && |w'.outbox| == |w.outbox|
      && forall i :: 0 <= i < |w.outbox| ==> w'.outbox[i] == w.outbox[i].(drained := w.outbox[i].drained || i in batch)
  {
    if batch != [] {
      var init, last := batch[..|batch| - 1], batch[|batch| - 1];
      RowsTell(w, init, now);
      var mid := DrainedRows(w, init, now);
      DrainedRowTells(mid, last, now);
      assert batch == init + [last];
      assert RowDid(mid, DrainedRow(mid, last, now), w.outbox[last], now);
      OneMoreRowDid(w, mid, DrainedRow(mid, last, now), init, last, now);
    }
  }

  /** A drain begins an enrollment only for an event of its batch, of at most fifty rows, whose contact is not
      left out and whose type triggers an active campaign; it ends one only for a do_not_engage event of the batch;
      every other enrollment is as it was. */
  lemma {:induction false} DrainTells(w: World, locked: set<nat>, now: int)
    requires FreshIds(w)
    ensures var batch := Batch(w.outbox, locked, 0, 50);
      |batch| <= 50 && RowsDid(w, Drained(w, locked, now), batch, now)
  {
    RowsTell(w, Batch(w.outbox, locked, 0, 50), now);
  }

  // ---------------------------------------------------------------- one worker tick

  /** A tick touches an enrollment only when its campaign is active, its contact has a status other than
      do_not_engage, and a step is due; then a send stamps it, and a drop ends it. */
  lemma {:induction false} TickTells(w: World, e: Enrollment, now: int, sentAt: int, outcome: DripWalk.Outcome)
    ensures var e' := Ticked(w, e, now, sentAt, outcome);
      if e.campaign < |w.campaigns| && w.campaigns[e.campaign].active && e.contact in w.contacts
         && w.contacts[e.contact].status.Some? && w.contacts[e.contact].status.value != "do_not_engage"
         && DueStep(e, w.campaigns[e.campaign].steps, now).Some?
      then match outcome
           case Kept => e' == e
           case Sent => e'.lastSentAt == Some(sentAt) && e'.campaign == e.campaign && e'.contact == e.contact && e'.log == e.log
           case Dropped(reason) => ExitsWith(e, e', reason, now)
      else e' == e
  {
  }

  /** Pausing and resuming go between active and paused and change nothing else. */
  lemma {:induction false} PauseTells(e: Enrollment, paused: bool)
    ensures PausedOr(e, paused) == e.(state := PausedOr(e, paused).state)
    ensures e.state == Active && paused ==> PausedOr(e, paused).state == Paused
    ensures e.state == Paused && !paused ==> PausedOr(e, paused).state == Active
    ensures PausedOr(e, paused) != e ==> (e.state == Active && paused) || (e.state == Paused && !paused)
  {
  }
}
