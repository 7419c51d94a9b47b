/** What overlapping drains keep, and when a contact is left alone although they overlap. */
module DripOverlapLaws {
  import opened Options
  import opened DripSteps
  import E = DripEngine
  import opened DripEngine
  import opened DripLifecycle
  import opened DripOverlap

  // ---------------------------------------------------------------- one open enrollment, still

  ghost predicate DrainSound(w: World, t: InFlight) {
    InRange(w, t) && Sound(View(w, t)) && Evolves(w, View(w, t))
  }

  /** Two drains never wrote the same row, and a pending open enrollment of one meets no index entry that
      the other uses or gives up. */
  ghost predicate Apart(w: World, mine: map<EnrollmentId, Enrollment>, other: map<EnrollmentId, Enrollment>) {
    && mine.Keys !! other.Keys
    && forall id :: id in mine && Open(mine[id]) ==> !Claims(w, other, mine[id].campaign, mine[id].contact)
  }

  ghost predicate Coherent(s: State) {
    && Sound(s.w)
    && (forall d :: d in s.drains ==> DrainSound(s.w, s.drains[d]))
    && (forall d, e :: d in s.drains && e in s.drains && d != e ==> Apart(s.w, s.drains[d].mine, s.drains[e].mine))
  }

  lemma {:induction false} FreshDrainIsSound(w: World, batch: seq<nat>)
    requires Sound(w) && forall k :: 0 <= k < |batch| ==> batch[k] < |w.outbox|
    ensures DrainSound(w, InFlight(batch, 0, map[]))
  {
    assert w.enrollments + map[] == w.enrollments;
  }

  lemma {:induction false} WorkKeepsDrain(w: World, t: InFlight, now: int)
    requires DrainSound(w, t) && t.done < |t.batch|
    ensures var worked := Worked(w, t, now);
      && w.next <= worked.next
      && DrainSound(w.(next := worked.next), InFlight(t.batch, t.done + 1, Written(w.enrollments, worked.enrollments)))
  {
    DrainRowStep(View(w, t), t.batch[t.done], now);
    SeesItsWork(w, t, now);
    EvolvesOnward(w, View(w, t), Worked(w, t, now));
  }

  lemma {:induction false} HigherNextKeepsDrain(w: World, t: InFlight, next: EnrollmentId)
    requires DrainSound(w, t) && w.next <= next
    ensures DrainSound(w.(next := next), t)
  {
  }

  lemma {:induction false} HigherNextKeepsApart(w: World, mine: map<EnrollmentId, Enrollment>, other: map<EnrollmentId, Enrollment>, next: EnrollmentId)
    requires Apart(w, mine, other)
    ensures Apart(w.(next := next), mine, other)
  {
  }

  /** What waits for no other drain stays apart from it. */
  lemma {:induction false} NoClashIsApart(w: World, t: InFlight, changed: map<EnrollmentId, Enrollment>)
    requires DrainSound(w, t) && !Clash(w, t.mine, changed)
    ensures Apart(w, changed, t.mine) && Apart(w, t.mine, changed)
  {
    forall id | id in t.mine && Open(t.mine[id]) ensures !Claims(w, changed, t.mine[id].campaign, t.mine[id].contact) {
      var e := t.mine[id];
      assert Claims(w, t.mine, e.campaign, e.contact);
      forall b | b in changed
        ensures !OpenFor(changed[b], e.campaign, e.contact)
        ensures b in w.enrollments ==> !OpenFor(w.enrollments[b], e.campaign, e.contact)
      {
        assert View(w, t).enrollments[id] == e;
        assert b in w.enrollments ==> View(w, t).enrollments[b] == w.enrollments[b];
      }
    }
  }

  /** The rows of two drains that are apart, one over the other. */
  lemma {:induction false} CommitKeepsUniqueOpen(w: World, t: InFlight, u: InFlight)
    requires DrainSound(w, t) && DrainSound(w, u) && Apart(w, t.mine, u.mine) && Apart(w, u.mine, t.mine)
    ensures UniqueOpen(View(View(w, t), u))
  {
    var rows := View(View(w, t), u).enrollments;
    forall i, j | i in rows && j in rows && i != j && Open(rows[j]) ensures !OpenFor(rows[i], rows[j].campaign, rows[j].contact) {
      if j !in u.mine && i !in u.mine {
        assert View(w, t).enrollments[i] == rows[i] && View(w, t).enrollments[j] == rows[j];
      } else if j !in t.mine && i !in t.mine {
        assert View(w, u).enrollments[i] == rows[i] && View(w, u).enrollments[j] == rows[j];
      } else if j in u.mine {
        assert !Claims(w, t.mine, rows[j].campaign, rows[j].contact);
      } else {
        assert !Claims(w, u.mine, rows[j].campaign, rows[j].contact);
      }
    }
  }

  lemma {:induction false} CommitKeepsOther(w: World, t: InFlight, u: InFlight)
    requires DrainSound(w, t) && DrainSound(w, u) && Apart(w, t.mine, u.mine) && Apart(w, u.mine, t.mine)
    ensures DrainSound(View(w, t), u)
  {
    CommitKeepsUniqueOpen(w, t, u);
  }

  lemma {:induction false} CommitKeepsApart(w: World, t: InFlight, mine: map<EnrollmentId, Enrollment>, other: map<EnrollmentId, Enrollment>)
    requires t.done <= |t.batch| && Apart(w, mine, other) && t.mine.Keys !! other.Keys
    ensures Apart(View(w, t), mine, other)
  {
  }

  lemma {:induction false} ChangeKeepsUniqueOpen(w: World, w': World, t: InFlight)
    requires DrainSound(w, t) && Sound(w') && |w.outbox| <= |w'.outbox|
    requires !Clash(w, t.mine, Written(w.enrollments, w'.enrollments))
    ensures UniqueOpen(View(w', t))
  {
    var rows, changed := View(w', t).enrollments, Written(w.enrollments, w'.enrollments);
    forall i, j | i in rows && j in rows && i != j && Open(rows[j]) ensures !OpenFor(rows[i], rows[j].campaign, rows[j].contact) {
      if i !in t.mine && j !in t.mine {
        assert w'.enrollments[i] == rows[i] && w'.enrollments[j] == rows[j];
      } else if i in changed {
        assert i !in t.mine && Claims(w, t.mine, rows[j].campaign, rows[j].contact);
      } else if j in changed {
        assert j !in t.mine && !Claims(w, t.mine, rows[j].campaign, rows[j].contact);
      } else {
        assert View(w, t).enrollments[i] == rows[i] && View(w, t).enrollments[j] == rows[j];
      }
    }
  }

  /** A row that the drain wrote is locked, so the change left the committed one as it was. */
  lemma {:induction false} ChangeKeepsEvolution(w: World, w': World, t: InFlight)
    requires t.done <= |t.batch| && Evolves(w, View(w, t))
    requires !Clash(w, t.mine, Written(w.enrollments, w'.enrollments))
    ensures Evolves(w', View(w', t))
  {
    forall id | id in w'.enrollments && id in t.mine ensures Keeps(w'.enrollments[id], t.mine[id]) {
      assert id !in Written(w.enrollments, w'.enrollments);
      assert View(w, t).enrollments[id] == t.mine[id];
    }
  }

  lemma {:induction false} ChangeKeepsDrain(w: World, w': World, t: InFlight)
    requires DrainSound(w, t) && Sound(w') && Evolves(w, w') && |w.outbox| <= |w'.outbox|
    requires !Clash(w, t.mine, Written(w.enrollments, w'.enrollments))
    ensures DrainSound(w', t)
  {
    ChangeKeepsUniqueOpen(w, w', t);
    ChangeKeepsEvolution(w, w', t);
  }

  lemma {:induction false} ChangeKeepsApart(w: World, w': World, mine: map<EnrollmentId, Enrollment>, other: map<EnrollmentId, Enrollment>)
    requires Apart(w, mine, other) && !Clash(w, other, Written(w.enrollments, w'.enrollments))
    ensures Apart(w', mine, other)
  {
    forall b | b in other && b in w'.enrollments ensures b in w.enrollments && w'.enrollments[b] == w.enrollments[b] {
      assert b !in Written(w.enrollments, w'.enrollments);
    }
  }

  lemma {:induction false} PutDrainKeepsCoherent(s: State, next: EnrollmentId, d: DrainId, t: InFlight)
    requires Coherent(s) && s.w.next <= next && DrainSound(s.w.(next := next), t)
    requires forall e :: e in s.drains && e != d ==> Apart(s.w, t.mine, s.drains[e].mine) && Apart(s.w, s.drains[e].mine, t.mine)
    ensures Coherent(State(s.w.(next := next), s.drains[d := t]))
  {
    var w' := s.w.(next := next);
    forall e | e in s.drains && e != d ensures DrainSound(w', s.drains[e]) {
      HigherNextKeepsDrain(s.w, s.drains[e], next);
    }
    forall e, f | e in s.drains && f in s.drains && e != f && e != d && f != d ensures Apart(w', s.drains[e].mine, s.drains[f].mine) {
      HigherNextKeepsApart(s.w, s.drains[e].mine, s.drains[f].mine, next);
    }
    forall e | e in s.drains && e != d ensures Apart(w', t.mine, s.drains[e].mine) && Apart(w', s.drains[e].mine, t.mine) {
      HigherNextKeepsApart(s.w, t.mine, s.drains[e].mine, next);
      HigherNextKeepsApart(s.w, s.drains[e].mine, t.mine, next);
    }
  }

  lemma {:induction false} BeginKeepsCoherent(s: State, d: DrainId, batch: seq<nat>)
    requires Coherent(s) && forall k :: 0 <= k < |batch| ==> batch[k] < |s.w.outbox|
    ensures Coherent(s.(drains := s.drains[d := InFlight(batch, 0, map[])]))
  {
    FreshDrainIsSound(s.w, batch);
    PutDrainKeepsCoherent(s, s.w.next, d, InFlight(batch, 0, map[]));
  }

  lemma {:induction false} WorkKeepsCoherent(s: State, d: DrainId, worked: World, t: InFlight)
    requires Coherent(s) && s.w.next <= worked.next && DrainSound(s.w.(next := worked.next), t)
    requires !Waits(s, Some(d), t.mine)
    ensures Coherent(State(s.w.(next := worked.next), s.drains[d := t]))
  {
    forall e | e in s.drains && e != d ensures Apart(s.w, t.mine, s.drains[e].mine) && Apart(s.w, s.drains[e].mine, t.mine) {
      NoClashIsApart(s.w, s.drains[e], t.mine);
    }
    PutDrainKeepsCoherent(s, worked.next, d, t);
  }

  lemma {:induction false} CommitKeepsCoherent(s: State, d: DrainId)
    requires Coherent(s) && Enabled(s, Commit(d))
    ensures Coherent(Moved(s, Commit(d))) && Evolves(s.w, Moved(s, Commit(d)).w)
  {
    var t := s.drains[d];
    forall e | e in s.drains && e != d ensures DrainSound(View(s.w, t), s.drains[e]) {
      CommitKeepsOther(s.w, t, s.drains[e]);
    }
    forall e, f | e in s.drains && f in s.drains && e != f && e != d && f != d
      ensures Apart(View(s.w, t), s.drains[e].mine, s.drains[f].mine)
    {
      CommitKeepsApart(s.w, t, s.drains[e].mine, s.drains[f].mine);
    }
  }

  lemma {:induction false} OtherKeepsCoherent(s: State, ev: E.Event)
    requires Coherent(s) && Enabled(s, Other(ev))
    ensures Coherent(Moved(s, Other(ev))) && Evolves(s.w, Moved(s, Other(ev)).w)
  {
    var w' := E.Step(s.w, ev);
    StepKeepsSound(s.w, ev);
    forall d | d in s.drains ensures DrainSound(w', s.drains[d]) {
      ChangeKeepsDrain(s.w, w', s.drains[d]);
    }
    forall d, e | d in s.drains && e in s.drains && d != e ensures Apart(w', s.drains[d].mine, s.drains[e].mine) {
      ChangeKeepsApart(s.w, w', s.drains[d].mine, s.drains[e].mine);
    }
  }

  lemma {:induction false} MoveKeepsCoherent(s: State, m: Move)
    requires Coherent(s)
    ensures Coherent(Moved(s, m)) && Evolves(s.w, Moved(s, m).w)
  {
    if Enabled(s, m) {
      match m
      case Begin(d) => BeginKeepsCoherent(s, d, Batch(s.w.outbox, LockedRows(s), 0, DRAIN_BATCH_SIZE));
      case Work(d, now) =>
        var t, worked := s.drains[d], Worked(s.w, s.drains[d], now);
        WorkKeepsDrain(s.w, t, now);
        WorkKeepsCoherent(s, d, worked, InFlight(t.batch, t.done + 1, Written(s.w.enrollments, worked.enrollments)));
      case Commit(d) => CommitKeepsCoherent(s, d);
      case Abort(d) =>
      case Other(ev) => OtherKeepsCoherent(s, ev);
    }
  }

  /** However drains overlap with each other and with everything else, at any time at most one enrollment
      per campaign and contact is open among what is committed and among what any drain sees, and an
      enrollment that was closed at the start is the very same row at the end. */
  lemma {:induction false} OneOpenWhateverOverlaps(s: State, moves: seq<Move>)
    requires Coherent(s)
    ensures Coherent(Play(s, moves)) && Evolves(s.w, Play(s, moves).w)
  {
    if moves != [] {
      var before := Play(s, moves[..|moves| - 1]);
      OneOpenWhateverOverlaps(s, moves[..|moves| - 1]);
      MoveKeepsCoherent(before, moves[|moves| - 1]);
      EvolvesOnward(s.w, before.w, Play(s, moves).w);
    }
  }

  // ---------------------------------------------------------------- a contact to be left alone

  predicate HoldsOpen(t: InFlight, contact: ContactId) {
    exists id :: id in t.mine && t.mine[id].contact == contact && Open(t.mine[id])
  }

  /** The drain holds an open enrollment of the contact, and no row it has yet to work asks for its exit. */
  predicate WillEnroll(w: World, t: InFlight, contact: ContactId) {
    HoldsOpen(t, contact) && forall k :: t.done <= k < |t.batch| ==> !AsksToLeave(w, t.batch[k], contact)
  }

  ghost predicate LeftAlone(s: State, contact: ContactId) {
    NoneOpen(s.w, contact) && forall d :: d in s.drains ==> !WillEnroll(s.w, s.drains[d], contact)
  }

  lemma {:induction false} OtherRowIsQuiet(w: World, i: nat, now: int, contact: ContactId)
    requires Sound(w) && i < |w.outbox| && DoNotEngage(w, contact) && !AsksToLeave(w, i, contact)
    ensures SameFor(w, DrainedRow(w, i, now), contact)
  {
    var row := w.outbox[i];
    if row.contact.Ref? && row.contact.id in w.contacts {
      EnrollUpToIsQuiet(w, row.eventType, row.contact.id, |w.campaigns|, contact);
    }
  }

  /** Only the row that asks for the exit changes whether the drain holds an open enrollment. */
  lemma {:induction false} WorkHolds(w: World, t: InFlight, now: int, contact: ContactId)
    requires DrainSound(w, t) && t.done < |t.batch| && DoNotEngage(w, contact) && NoneOpen(w, contact)
    ensures var t' := InFlight(t.batch, t.done + 1, Written(w.enrollments, Worked(w, t, now).enrollments));
      HoldsOpen(t', contact) == (HoldsOpen(t, contact) && !AsksToLeave(w, t.batch[t.done], contact))
  {
    var i, worked := t.batch[t.done], Worked(w, t, now);
    if AsksToLeave(w, i, contact) {
      ExitLeavesNoneOpen(View(w, t), i, now, contact);
    } else {
      OtherRowIsQuiet(View(w, t), i, now, contact);
      if HoldsOpen(t, contact) {
        var id :| id in t.mine && t.mine[id].contact == contact && Open(t.mine[id]);
        assert View(w, t).enrollments[id] == t.mine[id];
        assert id in Written(w.enrollments, worked.enrollments);
      }
    }
  }

  lemma {:induction false} WorkKeepsIntent(w: World, t: InFlight, now: int, contact: ContactId)
    requires DrainSound(w, t) && t.done < |t.batch| && DoNotEngage(w, contact) && NoneOpen(w, contact)
    ensures var worked := Worked(w, t, now);
      WillEnroll(w.(next := worked.next), InFlight(t.batch, t.done + 1, Written(w.enrollments, worked.enrollments)), contact)
        == WillEnroll(w, t, contact)
  {
    WorkHolds(w, t, now, contact);
  }

  lemma {:induction false} CommitShowsWhatItHolds(w: World, t: InFlight, contact: ContactId)
    requires t.done == |t.batch| && NoneOpen(w, contact)
    ensures NoneOpen(View(w, t), contact) == !WillEnroll(w, t, contact)
  {
    if HoldsOpen(t, contact) {
      var id :| id in t.mine && t.mine[id].contact == contact && Open(t.mine[id]);
      assert View(w, t).enrollments[id] == t.mine[id];
    }
  }

  /** What an outbox row asks for never changes. */
  predicate SameRequests(w: World, w': World) {
    && |w.outbox| <= |w'.outbox|
    && forall i :: 0 <= i < |w.outbox| ==> w'.outbox[i].eventType == w.outbox[i].eventType && w'.outbox[i].contact == w.outbox[i].contact
  }

  lemma {:induction false} SameIntent(w: World, w': World, t: InFlight, contact: ContactId)
    requires SameRequests(w, w') && InRange(w, t)
    ensures WillEnroll(w', t, contact) == WillEnroll(w, t, contact)
  {
  }

  lemma {:induction false} OthersKeepIntent(s: State, s': State, contact: ContactId)
    requires Coherent(s) && SameRequests(s.w, s'.w)
    requires forall d :: d in s.drains ==> !WillEnroll(s.w, s.drains[d], contact)
    ensures forall d :: d in s'.drains && d in s.drains && s'.drains[d] == s.drains[d] ==> !WillEnroll(s'.w, s'.drains[d], contact)
  {
    forall d | d in s.drains ensures !WillEnroll(s'.w, s.drains[d], contact) {
      SameIntent(s.w, s'.w, s.drains[d], contact);
    }
  }

  lemma {:induction false} WorkKeepsLeftAlone(s: State, d: DrainId, now: int, contact: ContactId)
    requires Coherent(s) && DoNotEngage(s.w, contact) && LeftAlone(s, contact) && Enabled(s, Work(d, now))
    ensures LeftAlone(Moved(s, Work(d, now)), contact)
  {
    WorkKeepsIntent(s.w, s.drains[d], now, contact);
    OthersKeepIntent(s, Moved(s, Work(d, now)), contact);
  }

  lemma {:induction false} CommitKeepsLeftAlone(s: State, d: DrainId, contact: ContactId)
    requires Coherent(s) && LeftAlone(s, contact) && Enabled(s, Commit(d))
    ensures LeftAlone(Moved(s, Commit(d)), contact)
  {
    CommitShowsWhatItHolds(s.w, s.drains[d], contact);
    OthersKeepIntent(s, Moved(s, Commit(d)), contact);
  }

  lemma {:induction false} StepKeepsRequests(w: World, ev: E.Event)
    requires !ev.Drain?
    ensures SameRequests(w, E.Step(w, ev))
  {
  }

  lemma {:induction false} OtherKeepsLeftAlone(s: State, ev: E.Event, contact: ContactId)
    requires Coherent(s) && DoNotEngage(s.w, contact) && LeftAlone(s, contact) && !ev.Drain?
    ensures LeftAlone(State(E.Step(s.w, ev), s.drains), contact)
  {
    StepIsQuiet(s.w, ev, contact);
    SameForKeepsNoneOpen(s.w, E.Step(s.w, ev), contact);
    StepKeepsRequests(s.w, ev);
    OthersKeepIntent(s, State(E.Step(s.w, ev), s.drains), contact);
  }

  lemma {:induction false} MoveKeepsLeftAlone(s: State, m: Move, contact: ContactId)
    requires Coherent(s) && DoNotEngage(s.w, contact) && LeftAlone(s, contact)
    ensures LeftAlone(Moved(s, m), contact)
  {
    if Enabled(s, m) {
      match m
      case Begin(d) =>
      case Work(d, now) => WorkKeepsLeftAlone(s, d, now, contact);
      case Commit(d) => CommitKeepsLeftAlone(s, d, contact);
      case Abort(d) =>
      case Other(ev) => OtherKeepsLeftAlone(s, ev, contact);
    }
  }

  /** The status holds before every move. */
  ghost predicate Stays(s: State, moves: seq<Move>, contact: ContactId) {
    forall k :: 0 <= k < |moves| ==> DoNotEngage(Play(s, moves[..k]).w, contact)
  }

  lemma {:induction false} PlayKeepsLeftAlone(s: State, moves: seq<Move>, contact: ContactId)
    requires Coherent(s) && LeftAlone(s, contact) && Stays(s, moves, contact)
    ensures LeftAlone(Play(s, moves), contact)
  {
    if moves != [] {
      var init := moves[..|moves| - 1];
      assert forall k :: 0 <= k < |init| ==> init[..k] == moves[..k];
      PlayKeepsLeftAlone(s, init, contact);
      OneOpenWhateverOverlaps(s, init);
      MoveKeepsLeftAlone(Play(s, init), moves[|moves| - 1], contact);
    }
  }

  // ---------------------------------------------------------------- and when it is not

  predicate DrainsOnly(moves: seq<Move>) {
    forall k :: 0 <= k < |moves| ==> !moves[k].Other?
  }

  /** Drains do not touch contacts. */
  lemma {:induction false} DrainsKeepContacts(s: State, moves: seq<Move>)
    requires DrainsOnly(moves)
    ensures Play(s, moves).w.contacts == s.w.contacts
  {
    if moves != [] {
      DrainsKeepContacts(s, moves[..|moves| - 1]);
    }
  }

  lemma {:induction false} AbortAll(s: State, victims: set<DrainId>) returns (moves: seq<Move>)
    requires victims <= s.drains.Keys
    ensures DrainsOnly(moves) && Play(s, moves) == s.(drains := s.drains - victims)
  {
    if victims == {} {
      moves := [];
      assert s.drains - victims == s.drains;
    } else {
      var d :| d in victims;
      var earlier := AbortAll(s, victims - {d});
      moves := earlier + [Abort(d)];
      PlayOneMore(s, earlier, Abort(d));
      assert s.drains - (victims - {d}) - {d} == s.drains - victims;
    }
  }

  /** A drain on its own that will enroll the contact. */
  ghost predicate AboutToEnroll(s: State, d: DrainId, contact: ContactId) {
    && Coherent(s) && DoNotEngage(s.w, contact) && NoneOpen(s.w, contact)
    && s.drains.Keys == {d} && WillEnroll(s.w, s.drains[d], contact)
  }

  lemma {:induction false} AloneItWorks(s: State, d: DrainId, contact: ContactId)
    requires AboutToEnroll(s, d, contact) && s.drains[d].done < |s.drains[d].batch|
    ensures var s' := Moved(s, Work(d, 0));
      && AboutToEnroll(s', d, contact)
      && s'.drains[d].batch == s.drains[d].batch && s'.drains[d].done == s.drains[d].done + 1
  {
    MoveKeepsCoherent(s, Work(d, 0));
    WorkKeepsIntent(s.w, s.drains[d], 0, contact);
    AloneItNeedNotWait(s, d, 0);
    WorkChangesNoTable(s.w, s.drains[d], 0);
  }

  lemma {:induction false} WorkChangesNoTable(w: World, t: InFlight, now: int)
    requires InRange(w, t) && t.done < |t.batch|
    ensures w.(next := Worked(w, t, now).next).contacts == w.contacts && w.(next := Worked(w, t, now).next).enrollments == w.enrollments
  {
  }

  lemma {:induction false} FirstMove(s: State, m: Move, rest: seq<Move>)
    ensures Play(s, [m] + rest) == Play(Moved(s, m), rest)
  {
    PlayOneMore(s, [], m);
    assert [] + [m] == [m];
    PlayInParts(s, [m], rest);
  }

  /** With nobody else about, such a drain works its remaining rows and commits. */
  lemma {:induction false} AloneItEnrolls(s: State, d: DrainId, contact: ContactId) returns (moves: seq<Move>)
    requires AboutToEnroll(s, d, contact)
    ensures DrainsOnly(moves) && !NoneOpen(Play(s, moves).w, contact)
    decreases |s.drains[d].batch| - s.drains[d].done
  {
    if s.drains[d].done == |s.drains[d].batch| {
      moves := [Commit(d)] + [];
      CommitShowsWhatItHolds(s.w, s.drains[d], contact);
      FirstMove(s, Commit(d), []);
    } else {
      AloneItWorks(s, d, contact);
      var rest := AloneItEnrolls(Moved(s, Work(d, 0)), d, contact);
      moves := [Work(d, 0)] + rest;
      FirstMove(s, Work(d, 0), rest);
    }
  }

  lemma {:induction false} ItCanEnroll(s: State, d: DrainId, contact: ContactId) returns (moves: seq<Move>)
    requires Coherent(s) && DoNotEngage(s.w, contact) && NoneOpen(s.w, contact)
    requires d in s.drains && WillEnroll(s.w, s.drains[d], contact)
    ensures DrainsOnly(moves) && !NoneOpen(Play(s, moves).w, contact)
  {
    var aborts := AbortAll(s, s.drains.Keys - {d});
    var alone := s.(drains := s.drains - (s.drains.Keys - {d}));
    assert alone.drains.Keys == {d} && alone.drains[d] == s.drains[d];
    var rest := AloneItEnrolls(alone, d, contact);
    moves := aborts + rest;
    PlayInParts(s, aborts, rest);
  }

  /** A do_not_engage contact has no open enrollment, now and under every overlap for as long as the status
      holds, if and only if it has none now and no drain under way holds one that none of its remaining
      rows takes back. Such a drain read the contact before the status changed. */
  lemma {:induction false} LeftAloneIff(s: State, contact: ContactId)
    requires Coherent(s) && DoNotEngage(s.w, contact)
    ensures (forall moves :: Stays(s, moves, contact) ==> NoneOpen(Play(s, moves).w, contact)) <==> LeftAlone(s, contact)
  {
    if !NoneOpen(s.w, contact) {
      assert Stays(s, [], contact) && Play(s, []) == s;
    } else if d :| d in s.drains && WillEnroll(s.w, s.drains[d], contact) {
      var moves := ItCanEnroll(s, d, contact);
      DrainsKeepStatus(s, moves, contact);
    } else {
      forall moves | Stays(s, moves, contact) ensures NoneOpen(Play(s, moves).w, contact) {
        PlayKeepsLeftAlone(s, moves, contact);
      }
    }
  }

  lemma {:induction false} DrainsKeepStatus(s: State, moves: seq<Move>, contact: ContactId)
    requires DrainsOnly(moves) && DoNotEngage(s.w, contact)
    ensures Stays(s, moves, contact)
  {
    forall k | 0 <= k < |moves| ensures DoNotEngage(Play(s, moves[..k]).w, contact) {
      DrainsKeepContacts(s, moves[..k]);
    }
  }

  // ---------------------------------------------------------------- an overlap that does it

  const TRIGGER := OutboxRow("e", Ref(0), false)
  const GOODBYE := OutboxRow(DO_NOT_ENGAGE_EVENT, Ref(0), false)
  const PENDING := map[0 := Enrollment(0, 0, 0, 0, Active, None, None, None, [])]

  /** Contact 0 and a campaign that reacts to "e", with these outbox rows and nothing enrolled. */
  function Small(status: string, outbox: seq<OutboxRow>, next: EnrollmentId): World {
    World(map[0 := Contact(Some(status), None)], {}, [Campaign(true, "e", 0, map[0 := 0])], map[], next, outbox)
  }

  lemma {:induction false} TheTriggerEnrolls()
    ensures var w := Small("active", [TRIGGER], 0);
      DrainedRow(w, 0, 0) == w.(enrollments := PENDING, next := 1, outbox := [TRIGGER.(drained := true)])
  {
    var w := Small("active", [TRIGGER], 0);
    NextIsUnique(map[0 := 0], 0, 0);
    assert w.campaigns[0].steps == map[0 := 0];
    assert EnrolledUpTo(w, "e", 0, 0) == w;
    assert Enrolled(w, 0, 0) == w.(enrollments := PENDING, next := 1);
    assert EnrolledUpTo(w, "e", 0, 1) == Enrolled(w, 0, 0);
  }

  lemma {:induction false} TheFirstDrainHolds()
    ensures Play(State(Small("active", [TRIGGER], 0), map[]), [Begin(0), Work(0, 0)])
         == State(Small("active", [TRIGGER], 1), map[0 := InFlight([0], 1, PENDING)])
  {
    var w := Small("active", [TRIGGER], 0);
    var s0, t := State(w, map[]), InFlight([0], 0, map[]);
    assert Batch([TRIGGER], {}, 1, DRAIN_BATCH_SIZE - 1) == [];
    assert LockedRows(s0) == {} && Batch([TRIGGER], {}, 0, DRAIN_BATCH_SIZE) == [0];
    var s1 := Moved(s0, Begin(0));
    assert s1 == State(w, map[0 := t]);
    assert View(w, t) == w by {
      assert w.enrollments + map[] == w.enrollments && MarkedRows(w.outbox, t.batch[..0]) == w.outbox;
    }
    TheTriggerEnrolls();
    AloneItNeedNotWait(s1, 0, 0);
    assert Written(map[], PENDING) == PENDING;
    assert Moved(s1, Work(0, 0)) == State(Small("active", [TRIGGER], 1), map[0 := InFlight([0], 1, PENDING)]);
    FirstMove(s0, Begin(0), [Work(0, 0)]);
    FirstMove(s1, Work(0, 0), []);
    assert [Begin(0)] + [Work(0, 0)] == [Begin(0), Work(0, 0)] && [Work(0, 0)] + [] == [Work(0, 0)];
  }

  lemma {:induction false} TheContactLeaves(s: State)
    requires s.w == Small("active", [TRIGGER], 1)
    ensures Play(s, [Other(E.PutContact(0, Contact(Some(DO_NOT_ENGAGE), None))), Other(E.Emit(GOODBYE))])
         == State(Small(DO_NOT_ENGAGE, [TRIGGER, GOODBYE], 1), s.drains)
  {
    var put, emit := Other(E.PutContact(0, Contact(Some(DO_NOT_ENGAGE), None))), Other(E.Emit(GOODBYE));
    assert Written(s.w.enrollments, s.w.enrollments) == map[];
    assert Moved(s, put) == State(Small(DO_NOT_ENGAGE, [TRIGGER], 1), s.drains);
    FirstMove(s, put, [emit]);
    FirstMove(Moved(s, put), emit, []);
    assert [put] + [emit] == [put, emit] && [emit] + [] == [emit];
  }

  lemma {:induction false} TheSecondDrainBegins(s: State)
    requires s.w.outbox == [TRIGGER, GOODBYE] && s.drains == map[0 := InFlight([0], 1, PENDING)]
    ensures Moved(s, Begin(1)) == s.(drains := s.drains[1 := InFlight([1], 0, map[])])
  {
    assert 0 in s.drains && 0 in s.drains[0].batch;
    assert LockedRows(s) == {0};
    assert Batch(s.w.outbox, {0}, 2, DRAIN_BATCH_SIZE - 1) == [];
    assert Batch(s.w.outbox, {0}, 1, DRAIN_BATCH_SIZE) == [1];
    assert Batch(s.w.outbox, {0}, 0, DRAIN_BATCH_SIZE) == [1];
  }

  lemma {:induction false} TheSecondDrainFindsNothing(s: State, drains: map<DrainId, InFlight>)
    requires s.w == Small(DO_NOT_ENGAGE, [TRIGGER, GOODBYE], 1) && s.drains == drains[1 := InFlight([1], 0, map[])]
    ensures Moved(s, Work(1, 0)) == State(s.w, drains[1 := InFlight([1], 1, map[])])
  {
    var w, t := s.w, InFlight([1], 0, map[]);
    assert View(w, t) == w by {
      assert w.enrollments + map[] == w.enrollments && MarkedRows(w.outbox, t.batch[..0]) == w.outbox;
    }
    var worked := DrainedRow(w, 1, 0);
    assert worked == w.(outbox := [TRIGGER, GOODBYE.(drained := true)]);
    assert Written(w.enrollments, worked.enrollments) == map[];
  }

  lemma {:induction false} TheSecondDrainCommits(s: State, drains: map<DrainId, InFlight>)
    requires s.w == Small(DO_NOT_ENGAGE, [TRIGGER, GOODBYE], 1) && s.drains == drains[1 := InFlight([1], 1, map[])] && 1 !in drains
    ensures Moved(s, Commit(1)) == State(Small(DO_NOT_ENGAGE, [TRIGGER, GOODBYE.(drained := true)], 1), drains)
  {
    var w, t := s.w, InFlight([1], 1, map[]);
    assert w.enrollments + map[] == w.enrollments;
    assert t.batch[..1] == [1] && MarkedRows(w.outbox, [1]) == [TRIGGER, GOODBYE.(drained := true)];
    assert s.drains - {1} == drains;
  }

  lemma {:induction false} TheSecondDrain(s: State)
    requires s == State(Small(DO_NOT_ENGAGE, [TRIGGER, GOODBYE], 1), map[0 := InFlight([0], 1, PENDING)])
    ensures Play(s, [Begin(1), Work(1, 0), Commit(1)])
         == State(Small(DO_NOT_ENGAGE, [TRIGGER, GOODBYE.(drained := true)], 1), s.drains)
  {
    var s1 := Moved(s, Begin(1));
    var s2 := Moved(s1, Work(1, 0));
    TheSecondDrainBegins(s);
    TheSecondDrainFindsNothing(s1, s.drains);
    TheSecondDrainCommits(s2, s.drains);
    FirstMove(s, Begin(1), [Work(1, 0), Commit(1)]);
    FirstMove(s1, Work(1, 0), [Commit(1)]);
    FirstMove(s2, Commit(1), []);
    assert [Begin(1)] + [Work(1, 0), Commit(1)] == [Begin(1), Work(1, 0), Commit(1)];
    assert [Work(1, 0)] + [Commit(1)] == [Work(1, 0), Commit(1)] && [Commit(1)] + [] == [Commit(1)];
  }

  /** A drain enrolls a contact and has not committed; the contact becomes do_not_engage, and a second drain
      works and commits that event; the first drain commits, and the contact has an open enrollment. */
  lemma {:induction false} OverlapEnrollsAfterTheEvent() returns (before: State, last: Move)
    ensures before == Play(State(Small("active", [TRIGGER], 0), map[]),
      [Begin(0), Work(0, 0)] + [Other(E.PutContact(0, Contact(Some(DO_NOT_ENGAGE), None))), Other(E.Emit(GOODBYE))]
      + [Begin(1), Work(1, 0), Commit(1)])
    ensures DoNotEngage(before.w, 0) && NoneOpen(before.w, 0)
    ensures before.w.outbox == [TRIGGER, GOODBYE.(drained := true)]
    ensures DoNotEngage(Moved(before, last).w, 0) && !NoneOpen(Moved(before, last).w, 0)
  {
    var s0 := State(Small("active", [TRIGGER], 0), map[]);
    var first, second := [Begin(0), Work(0, 0)], [Other(E.PutContact(0, Contact(Some(DO_NOT_ENGAGE), None))), Other(E.Emit(GOODBYE))];
    TheFirstDrainHolds();
    TheContactLeaves(Play(s0, first));
    PlayInParts(s0, first, second);
    TheSecondDrain(Play(s0, first + second));
    PlayInParts(s0, first + second, [Begin(1), Work(1, 0), Commit(1)]);
    before, last := Play(s0, first + second + [Begin(1), Work(1, 0), Commit(1)]), Commit(0);
    assert before.drains[0] == InFlight([0], 1, PENDING);
    assert PENDING[0].contact == 0 && Open(PENDING[0]);
    assert HoldsOpen(before.drains[0], 0);
    CommitShowsWhatItHolds(before.w, before.drains[0], 0);
  }
}
