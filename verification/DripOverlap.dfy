/** Drains that overlap. A drain locks its batch, works its rows one after the other on what is committed
    at that moment together with what it wrote itself, and shows nothing of it before it commits. Rows it
    rewrote stay locked until then, and the unique index makes an insert wait for an open transaction that
    uses or gives up the same entry. A step that would have to wait is not enabled and does nothing. */
module DripOverlap {
  import opened Options
  import opened DripSteps
  import E = DripEngine
  import opened DripEngine
  import opened DripLifecycle

  type DrainId = nat

  /** done rows of the batch are worked; mine holds the enrollments inserted or rewritten so far. */
  datatype InFlight = InFlight(batch: seq<nat>, done: nat, mine: map<EnrollmentId, Enrollment>)

  /** w is what is committed, except that w.next grows with every id that is drawn. */
  datatype State = State(w: World, drains: map<DrainId, InFlight>)

  datatype Move =
    | Begin(d: DrainId)
    | Work(d: DrainId, now: int)
    | Commit(d: DrainId)
    | Abort(d: DrainId)
    | Other(ev: E.Event)

  function MarkedRows(outbox: seq<OutboxRow>, rows: seq<nat>): (marked: seq<OutboxRow>)
    ensures |marked| == |outbox|
    ensures forall i :: 0 <= i < |outbox| ==> marked[i] == outbox[i].(drained := outbox[i].drained || i in rows)
  {
    seq(|outbox|, i requires 0 <= i < |outbox| => outbox[i].(drained := outbox[i].drained || i in rows))
  }

  /** What a drain sees: the committed rows under its own. */
  function View(w: World, t: InFlight): World
    requires t.done <= |t.batch|
  {
    w.(enrollments := w.enrollments + t.mine, outbox := MarkedRows(w.outbox, t.batch[..t.done]))
  }

  function Written(before: map<EnrollmentId, Enrollment>, after: map<EnrollmentId, Enrollment>): map<EnrollmentId, Enrollment> {
    map id | id in after && (id !in before || before[id] != after[id]) :: after[id]
  }

  /** An open transaction uses the index entry of this pair, or is giving it up. */
  predicate Claims(w: World, mine: map<EnrollmentId, Enrollment>, campaign: CampaignId, contact: ContactId) {
    exists b :: b in mine && (OpenFor(mine[b], campaign, contact) || (b in w.enrollments && OpenFor(w.enrollments[b], campaign, contact)))
  }

  predicate Clash(w: World, mine: map<EnrollmentId, Enrollment>, changed: map<EnrollmentId, Enrollment>) {
    exists id :: id in changed && (id in mine || (Open(changed[id]) && Claims(w, mine, changed[id].campaign, changed[id].contact)))
  }

  predicate Waits(s: State, self: Option<DrainId>, changed: map<EnrollmentId, Enrollment>) {
    exists d :: d in s.drains && Some(d) != self && Clash(s.w, s.drains[d].mine, changed)
  }

  function LockedRows(s: State): set<nat> {
    set d, i | d in s.drains && i in s.drains[d].batch :: i
  }

  ghost predicate InRange(w: World, t: InFlight) {
    t.done <= |t.batch| && forall k :: 0 <= k < |t.batch| ==> t.batch[k] < |w.outbox|
  }

  ghost function Worked(w: World, t: InFlight, now: int): World
    requires InRange(w, t) && t.done < |t.batch|
  {
    DrainedRow(View(w, t), t.batch[t.done], now)
  }

  ghost predicate Enabled(s: State, m: Move) {
    match m
    case Begin(d) => d !in s.drains
    case Work(d, now) =>
      && d in s.drains && InRange(s.w, s.drains[d]) && s.drains[d].done < |s.drains[d].batch|
      && !Waits(s, Some(d), Written(s.w.enrollments, Worked(s.w, s.drains[d], now).enrollments))
    case Commit(d) => d in s.drains && s.drains[d].done == |s.drains[d].batch|
    case Abort(d) => d in s.drains
    case Other(ev) => !ev.Drain? && !Waits(s, None, Written(s.w.enrollments, E.Step(s.w, ev).enrollments))
  }

  ghost function Moved(s: State, m: Move): State {
    if !Enabled(s, m) then s
    else
      match m
      case Begin(d) => s.(drains := s.drains[d := InFlight(Batch(s.w.outbox, LockedRows(s), 0, DRAIN_BATCH_SIZE), 0, map[])])
      case Work(d, now) =>
        var t := s.drains[d];
        var worked := Worked(s.w, t, now);
        State(s.w.(next := worked.next), s.drains[d := InFlight(t.batch, t.done + 1, Written(s.w.enrollments, worked.enrollments))])
      case Commit(d) => State(View(s.w, s.drains[d]), s.drains - {d})
      case Abort(d) => s.(drains := s.drains - {d})
      case Other(ev) => s.(w := E.Step(s.w, ev))
  }

  ghost function Play(s: State, moves: seq<Move>): State {
    if moves == [] then s else Moved(Play(s, moves[..|moves| - 1]), moves[|moves| - 1])
  }

  // ---------------------------------------------------------------- a drain on its own

  /** Overlaying the rows that changed gives the changed table, when no row was removed. */
  lemma {:induction false} WrittenOver(before: map<EnrollmentId, Enrollment>, after: map<EnrollmentId, Enrollment>)
    requires before.Keys <= after.Keys
    ensures before + Written(before, after) == after
  {
  }

  lemma {:induction false} EnrollingRemovesNone(w: World, eventType: string, contact: ContactId, n: nat)
    requires n <= |w.campaigns| && contact in w.contacts
    ensures w.enrollments.Keys <= EnrolledUpTo(w, eventType, contact, n).enrollments.Keys
  {
    if n > 0 {
      EnrollingRemovesNone(w, eventType, contact, n - 1);
    }
  }

  /** What one row of a drain leaves alone. */
  lemma {:induction false} DrainingKeeps(w: World, i: nat, now: int)
    requires i < |w.outbox|
    ensures var w' := DrainedRow(w, i, now);
      && w.enrollments.Keys <= w'.enrollments.Keys
      && w'.contacts == w.contacts && w'.campaigns == w.campaigns && w'.suppressed == w.suppressed
      && w'.outbox == w.outbox[i := w.outbox[i].(drained := true)]
  {
    var row := w.outbox[i];
    if row.contact.Ref? && row.contact.id in w.contacts {
      EnrollingRemovesNone(w, row.eventType, row.contact.id, |w.campaigns|);
    }
  }

  /** After the work on a row the drain sees what that row's work came to. */
  lemma {:induction false} SeesItsWork(w: World, t: InFlight, now: int)
    requires InRange(w, t) && t.done < |t.batch|
    ensures var worked := Worked(w, t, now);
      var t' := InFlight(t.batch, t.done + 1, Written(w.enrollments, worked.enrollments));
      InRange(w, t') && View(w.(next := worked.next), t') == worked
  {
    var worked := Worked(w, t, now);
    DrainingKeeps(View(w, t), t.batch[t.done], now);
    WrittenOver(w.enrollments, worked.enrollments);
    assert t.batch[..t.done + 1] == t.batch[..t.done] + [t.batch[t.done]];
    assert MarkedRows(w.outbox, t.batch[..t.done + 1]) == worked.outbox;
  }

  function WorkAll(d: DrainId, n: nat, now: int): seq<Move> {
    if n == 0 then [] else WorkAll(d, n - 1, now) + [Work(d, now)]
  }

  /** The only drain has worked n rows of its batch. */
  ghost predicate AloneAfter(s: State, w: World, d: DrainId, batch: seq<nat>, n: nat, now: int)
    requires n <= |batch| && forall k :: 0 <= k < |batch| ==> batch[k] < |w.outbox|
  {
    && s.drains.Keys == {d} && s.drains[d].batch == batch && s.drains[d].done == n && InRange(s.w, s.drains[d])
    && s.w.enrollments == w.enrollments && View(s.w, s.drains[d]) == DrainedRows(w, batch[..n], now)
  }

  lemma {:induction false} AloneItNeedNotWait(s: State, d: DrainId, now: int)
    requires s.drains.Keys == {d} && InRange(s.w, s.drains[d]) && s.drains[d].done < |s.drains[d].batch|
    ensures Enabled(s, Work(d, now))
    ensures var t, worked := s.drains[d], Worked(s.w, s.drains[d], now);
      Moved(s, Work(d, now)) == State(s.w.(next := worked.next),
                                      map[d := InFlight(t.batch, t.done + 1, Written(s.w.enrollments, worked.enrollments))])
  {
    assert !Waits(s, Some(d), Written(s.w.enrollments, Worked(s.w, s.drains[d], now).enrollments));
  }

  lemma {:induction false} AloneStep(s: State, w: World, d: DrainId, batch: seq<nat>, n: nat, now: int)
    requires n < |batch| && forall k :: 0 <= k < |batch| ==> batch[k] < |w.outbox|
    requires AloneAfter(s, w, d, batch, n, now)
    ensures AloneAfter(Moved(s, Work(d, now)), w, d, batch, n + 1, now)
  {
    SeesItsWork(s.w, s.drains[d], now);
    AloneItNeedNotWait(s, d, now);
    assert batch[..n + 1][..n] == batch[..n] && batch[..n + 1][n] == batch[n];
  }

  lemma {:induction false} AloneAtFirst(w: World, d: DrainId, batch: seq<nat>, now: int)
    requires forall k :: 0 <= k < |batch| ==> batch[k] < |w.outbox|
    ensures AloneAfter(State(w, map[d := InFlight(batch, 0, map[])]), w, d, batch, 0, now)
  {
    assert MarkedRows(w.outbox, batch[..0]) == w.outbox;
    assert w.enrollments + map[] == w.enrollments;
  }

  lemma {:induction false} PlayOneMore(s: State, moves: seq<Move>, m: Move)
    ensures Play(s, moves + [m]) == Moved(Play(s, moves), m)
  {
    assert (moves + [m])[..|moves|] == moves;
  }

  ghost function AfterWork(s: State, d: DrainId, n: nat, now: int): State {
    if n == 0 then s else Moved(AfterWork(s, d, n - 1, now), Work(d, now))
  }

  lemma {:induction false} PlayWorkAll(s: State, d: DrainId, n: nat, now: int)
    ensures Play(s, WorkAll(d, n, now)) == AfterWork(s, d, n, now)
  {
    if n > 0 {
      PlayWorkAll(s, d, n - 1, now);
      PlayOneMore(s, WorkAll(d, n - 1, now), Work(d, now));
    }
  }

  /** What one row's work carries on from each count to the next holds after all of them. */
  lemma {:induction false} RowByRow(holds: (nat, State) -> bool, s: State, d: DrainId, n: nat, now: int)
    requires holds(0, s)
    requires forall k: nat, x: State {:trigger holds(k, x)} :: k < n && holds(k, x) ==> holds(k + 1, Moved(x, Work(d, now)))
    ensures holds(n, AfterWork(s, d, n, now))
  {
    if n > 0 {
      RowByRow(holds, s, d, n - 1, now);
    }
  }

  lemma {:induction false} AloneAtWork(s: State, w: World, d: DrainId, batch: seq<nat>, now: int)
    requires forall k :: 0 <= k < |batch| ==> batch[k] < |w.outbox|
    requires AloneAfter(s, w, d, batch, 0, now)
    ensures AloneAfter(AfterWork(s, d, |batch|, now), w, d, batch, |batch|, now)
  {
    var holds: (nat, State) -> bool := (k: nat, x: State) => k <= |batch| && AloneAfter(x, w, d, batch, k, now);
    forall k: nat, x: State | k < |batch| && holds(k, x) ensures holds(k + 1, Moved(x, Work(d, now))) {
      AloneStep(x, w, d, batch, k, now);
    }
    RowByRow(holds, s, d, |batch|, now);
  }

  /** A drain that nothing overlaps comes to the one-step drain of DripEngine. */
  lemma {:induction false} DrainAloneIsOneStep(w: World, d: DrainId, now: int)
    ensures var batch := Batch(w.outbox, {}, 0, DRAIN_BATCH_SIZE);
      Play(State(w, map[]), [Begin(d)] + WorkAll(d, |batch|, now) + [Commit(d)]) == State(Drained(w, {}, now), map[])
  {
    var batch := Batch(w.outbox, {}, 0, DRAIN_BATCH_SIZE);
    var s, works := State(w, map[]), WorkAll(d, |batch|, now);
    var begun := State(w, map[d := InFlight(batch, 0, map[])]);
    assert LockedRows(s) == {};
    PlayOneMore(s, [], Begin(d));
    assert [] + [Begin(d)] == [Begin(d)];
    assert Play(s, [Begin(d)]) == begun;
    PlayInParts(s, [Begin(d)], works);
    AloneAtFirst(w, d, batch, now);
    AloneAtWork(begun, w, d, batch, now);
    PlayWorkAll(begun, d, |batch|, now);
    assert batch[..|batch|] == batch;
    PlayOneMore(s, [Begin(d)] + works, Commit(d));
  }

  lemma {:induction false} PlayInParts(s: State, a: seq<Move>, b: seq<Move>)
    ensures Play(s, a + b) == Play(Play(s, a), b)
  {
    if b == [] {
      assert a + b == a;
    } else {
      PlayInParts(s, a, b[..|b| - 1]);
      assert (a + b)[..|a + b| - 1] == a + b[..|b| - 1];
    }
  }
}
