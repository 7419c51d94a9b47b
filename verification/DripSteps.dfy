/** One enrollment, the step list of its campaign, and what claim, send, advance and exit do. */
module DripSteps {
  import opened Options

  /** Position to delay_days; the index on (campaign, position) makes positions unique. */
  type Steps = map<nat, nat>

  type CampaignId = nat
  type ContactId = nat

  datatype EnrollmentState = Pending | Active | Paused | Completed | Exited

  datatype LogEntry = LogEntry(kind: string, detail: string)

  datatype Enrollment = Enrollment(
    campaign: CampaignId, contact: ContactId, version: int,
    position: int, state: EnrollmentState, lastSentAt: Option<int>,
    exitedAt: Option<int>, exitReason: Option<string>, log: seq<LogEntry>)

  /** Instants are microseconds. */
  const DAY := 24 * 60 * 60 * 1_000_000

  predicate Open(e: Enrollment) {
    e.state.Pending? || e.state.Active? || e.state.Paused?
  }

  // ---------------------------------------------------------------- the step list

  predicate IsNext(steps: Steps, from: int, p: nat) {
    p in steps && p >= from && forall q :: q in steps && q >= from ==> p <= q
  }

  lemma {:induction false} LowestExists(steps: Steps, from: int, candidates: set<nat>) returns (p: nat)
    requires candidates != {} && candidates <= steps.Keys && forall q :: q in candidates ==> q >= from
    ensures p in candidates && forall q :: q in candidates ==> p <= q
  {
    p :| p in candidates;
    var rest := candidates - {p};
    assert forall r :: r in candidates ==> r == p || r in rest;
    if rest != {} {
      var q := LowestExists(steps, from, rest);
      p := if p <= q then p else q;
    }
  }

  /** ORDER BY position LIMIT 1 over the steps at or above a position. */
  ghost function NextFrom(steps: Steps, from: int): (next: Option<nat>)
    ensures next.Some? ==> IsNext(steps, from, next.value)
    ensures next.None? ==> forall q :: q in steps ==> q < from
  {
    if exists q :: q in steps && q >= from then
      assert exists p :: IsNext(steps, from, p) by {
        var candidates := set q | q in steps && q >= from;
        var q :| q in steps && q >= from;
        assert q in candidates;
        var p := LowestExists(steps, from, candidates);
        assert forall r :: r in steps && r >= from ==> r in candidates;
        assert IsNext(steps, from, p);
      }
      var p :| IsNext(steps, from, p);
      Some(p)
    else None
  }

  lemma {:induction false} NextIsUnique(steps: Steps, from: int, p: nat)
    requires IsNext(steps, from, p)
    ensures NextFrom(steps, from) == Some(p)
  {
  }

  // ---------------------------------------------------------------- claim, advance, exit

  /** The step that claim_due_steps pairs with the enrollment, if one is due. The caller has
      already checked campaign and contact. A first step is due at once, whatever its delay. */
  ghost function DueStep(e: Enrollment, steps: Steps, now: int): (due: Option<nat>)
    ensures due.Some? ==> due.value in steps
  {
    match NextFrom(steps, e.position)
    case None => None
    case Some(p) =>
      if e.state.Active? && (e.lastSentAt.None? || e.lastSentAt.value + steps[p] * DAY <= now) then Some(p) else None
  }

  /** A step is due exactly when the enrollment is active, the step is the lowest at or above its position, and
      either nothing was sent yet or the last send is at least that many days ago. */
  lemma {:induction false} DueIff(e: Enrollment, steps: Steps, now: int, p: nat)
    ensures DueStep(e, steps, now) == Some(p) <==>
      && e.state == Active
      && p in steps && e.position <= p && (forall q :: q in steps && e.position <= q ==> p <= q)
      && (e.lastSentAt.None? || now >= e.lastSentAt.value + steps[p] * 86_400_000_000)
  {
    if IsNext(steps, e.position, p) {
      NextIsUnique(steps, e.position, p);
    }
  }

  /** Moves on from the stored position, not from the position just sent. */
  ghost function Advanced(e: Enrollment, steps: Steps, sentAt: int): Enrollment {
    match NextFrom(steps, e.position + 1)
    case None => e.(lastSentAt := Some(sentAt), state := Completed, exitedAt := Some(sentAt), exitReason := Some("completed"))
    case Some(p) => e.(lastSentAt := Some(sentAt), position := p)
  }

  function WithdrawnAt(e: Enrollment, reason: string, now: int): Enrollment {
    if !Open(e) then e
    else e.(state := Exited, exitedAt := Some(now), exitReason := Some(reason), log := e.log + [LogEntry("exited", reason)])
  }

  /** exit_enrollment is idempotent, whatever the second reason and time. */
  lemma {:induction false} ExitIsIdempotent(e: Enrollment, reason: string, now: int, reason': string, now': int)
    ensures WithdrawnAt(WithdrawnAt(e, reason, now), reason', now') == WithdrawnAt(e, reason, now)
    ensures !Open(WithdrawnAt(e, reason, now))
  {
  }

  class EnrollmentRow {
    var row: Enrollment

    constructor (row: Enrollment)
      ensures this.row == row
    {
      this.row := row;
    }

    method ExitEnrollment(reason: string, now: int)
      modifies this
      ensures row == WithdrawnAt(old(row), reason, now)
      ensures old(row).state in {Completed, Exited} ==> row == old(row)
      ensures old(row).state in {Pending, Active, Paused} ==>
        row == old(row).(state := Exited, exitedAt := Some(now), exitReason := Some(reason),
                         log := old(row).log + [LogEntry("exited", reason)])
    {
      if row.state.Completed? || row.state.Exited? {
        return;
      }
      row := row.(state := Exited);
      row := row.(exitedAt := Some(now));
      row := row.(exitReason := Some(reason));
      row := row.(log := row.log + [LogEntry("exited", reason)]);
    }

    /** The scalar query for the next position, as a scan. */
    static method NextPosition(steps: Steps, from: int) returns (next: Option<nat>)
      ensures next == NextFrom(steps, from)
    {
      next := None;
      var unseen := steps.Keys;
      while unseen != {}
        invariant unseen <= steps.Keys
        invariant next.None? ==> forall q :: q in steps && q !in unseen ==> q < from
        invariant next.Some? ==> next.value in steps && next.value >= from
        invariant next.Some? ==> forall q :: q in steps && q !in unseen && q >= from ==> next.value <= q
      {
        var q :| q in unseen;
        unseen := unseen - {q};
        if q >= from && (next.None? || q < next.value) {
          next := Some(q);
        }
      }
      if next.Some? {
        NextIsUnique(steps, from, next.value);
      }
    }

    /** True when a higher step remains, false when the enrollment is now completed. */
    method AdvanceEnrollment(steps: Steps, sentAt: int) returns (advanced: bool)
      modifies this
      ensures row == Advanced(old(row), steps, sentAt)
      ensures advanced <==> exists q :: q in steps && q > old(row).position
      ensures advanced ==>
        && row == old(row).(lastSentAt := Some(sentAt), position := row.position)
        && old(row).position < row.position && row.position in steps
        && (forall q :: q in steps && q > old(row).position ==> row.position <= q)
      ensures !advanced ==>
        row == old(row).(lastSentAt := Some(sentAt), state := Completed, exitedAt := Some(sentAt), exitReason := Some("completed"))
    {
      row := row.(lastSentAt := Some(sentAt));
      var next := NextPosition(steps, row.position + 1);
      if next.None? {
        row := row.(state := Completed);
        row := row.(exitedAt := Some(sentAt));
        row := row.(exitReason := Some("completed"));
        return false;
      }
      row := row.(position := next.value);
      return true;
    }
  }
}
