/** From the do_not_engage event on: what the drain that works it achieves when other drains overlap. */
module DripOverlapExit {
  import opened Options
  import opened DripSteps
  import E = DripEngine
  import opened DripEngine
  import opened DripLifecycle
  import opened DripOverlap
  import opened DripOverlapLaws

  /** Drain d sees no open enrollment of the contact, and no other drain is to bring one. What is committed may
      still hold some that d has exited and not yet committed. */
  ghost predicate Exiting(s: State, d: DrainId, contact: ContactId) {
    && d in s.drains && InRange(s.w, s.drains[d]) && NoneOpen(View(s.w, s.drains[d]), contact)
    && forall e :: e in s.drains && e != d ==> !WillEnroll(s.w, s.drains[e], contact)
  }

  /** A drain that has just worked a row that asks for the exit sees none open. */
  lemma {:induction false} WorkingTheExitClears(s: State, d: DrainId, now: int, contact: ContactId)
    requires Coherent(s) && Enabled(s, Work(d, now)) && AsksToLeave(s.w, s.drains[d].batch[s.drains[d].done], contact)
    ensures var s' := Moved(s, Work(d, now)); d in s'.drains && InRange(s'.w, s'.drains[d]) && NoneOpen(View(s'.w, s'.drains[d]), contact)
  {
    var t := s.drains[d];
    assert AsksToLeave(View(s.w, t), t.batch[t.done], contact);
    ExitLeavesNoneOpen(View(s.w, t), t.batch[t.done], now, contact);
    SeesItsWork(s.w, t, now);
  }

  // ---------------------------------------------------------------- what other drains and sessions do meanwhile

  /** Work on a row brings no open enrollment of a do_not_engage contact. */
  lemma {:induction false} WorkBringsNone(w: World, t: InFlight, now: int, contact: ContactId)
    requires DrainSound(w, t) && t.done < |t.batch| && DoNotEngage(w, contact)
    ensures forall id :: id in Worked(w, t, now).enrollments && Worked(w, t, now).enrollments[id].contact == contact
                         && Open(Worked(w, t, now).enrollments[id])
              ==> id in View(w, t).enrollments && View(w, t).enrollments[id] == Worked(w, t, now).enrollments[id]
  {
    if AsksToLeave(w, t.batch[t.done], contact) {
      ExitLeavesNoneOpen(View(w, t), t.batch[t.done], now, contact);
    } else {
      OtherRowIsQuiet(View(w, t), t.batch[t.done], now, contact);
    }
  }

  lemma {:induction false} WorkBringsNoIntent(w: World, t: InFlight, now: int, contact: ContactId)
    requires DrainSound(w, t) && t.done < |t.batch| && DoNotEngage(w, contact) && !WillEnroll(w, t, contact)
    ensures var worked := Worked(w, t, now);
      !WillEnroll(w.(next := worked.next), InFlight(t.batch, t.done + 1, Written(w.enrollments, worked.enrollments)), contact)
  {
    WorkBringsNone(w, t, now, contact);
    var t' := InFlight(t.batch, t.done + 1, Written(w.enrollments, Worked(w, t, now).enrollments));
    if HoldsOpen(t', contact) {
      var id :| id in t'.mine && t'.mine[id].contact == contact && Open(t'.mine[id]);
      assert View(w, t).enrollments[id] == t'.mine[id];
      assert id in t.mine;
      if AsksToLeave(w, t.batch[t.done], contact) {
        ExitLeavesNoneOpen(View(w, t), t.batch[t.done], now, contact);
      }
    }
  }

  lemma {:induction false} SelfWorkKeepsExiting(s: State, d: DrainId, now: int, contact: ContactId)
    requires Coherent(s) && DoNotEngage(s.w, contact) && Exiting(s, d, contact) && Enabled(s, Work(d, now))
    ensures Exiting(Moved(s, Work(d, now)), d, contact)
  {
    var s' := Moved(s, Work(d, now));
    WorkBringsNone(s.w, s.drains[d], now, contact);
    SeesItsWork(s.w, s.drains[d], now);
    assert NoneOpen(View(s'.w, s'.drains[d]), contact);
    OthersStillDoNot(s, s', d, contact);
  }

  /** Drains that a move leaves alone intend what they did. */
  lemma {:induction false} OthersStillDoNot(s: State, s': State, d: DrainId, contact: ContactId)
    requires Coherent(s) && SameRequests(s.w, s'.w)
    requires forall e :: e in s.drains && e != d ==> !WillEnroll(s.w, s.drains[e], contact)
    ensures forall e :: e in s'.drains && e in s.drains && e != d && s'.drains[e] == s.drains[e] ==> !WillEnroll(s'.w, s'.drains[e], contact)
  {
    forall e | e in s.drains && e != d ensures !WillEnroll(s'.w, s.drains[e], contact) {
      SameIntent(s.w, s'.w, s.drains[e], contact);
    }
  }

  lemma {:induction false} OtherWorkKeepsExiting(s: State, d: DrainId, e: DrainId, now: int, contact: ContactId)
    requires Coherent(s) && DoNotEngage(s.w, contact) && Exiting(s, d, contact) && Enabled(s, Work(e, now)) && e != d
    ensures Exiting(Moved(s, Work(e, now)), d, contact)
  {
    var s' := Moved(s, Work(e, now));
    WorkBringsNoIntent(s.w, s.drains[e], now, contact);
    OthersStillDoNot(s, s', d, contact);
    assert View(s'.w, s.drains[d]).enrollments == View(s.w, s.drains[d]).enrollments;
  }

  lemma {:induction false} CommitUnder(w: World, t: InFlight, u: InFlight, contact: ContactId)
    requires t.done <= |t.batch| && u.done <= |u.batch| && NoneOpen(View(w, t), contact) && !HoldsOpen(u, contact)
    ensures NoneOpen(View(View(w, u), t), contact)
  {
    var rows := View(View(w, u), t).enrollments;
    forall id | id in rows && rows[id].contact == contact ensures !Open(rows[id]) {
      if id in t.mine || id !in u.mine {
        assert View(w, t).enrollments[id] == rows[id];
      } else {
        assert rows[id] == u.mine[id];
      }
    }
  }

  lemma {:induction false} OtherCommitKeepsExiting(s: State, d: DrainId, e: DrainId, contact: ContactId)
    requires Coherent(s) && Exiting(s, d, contact) && Enabled(s, Commit(e)) && e != d
    ensures Exiting(Moved(s, Commit(e)), d, contact)
  {
    CommitUnder(s.w, s.drains[d], s.drains[e], contact);
    OthersStillDoNot(s, Moved(s, Commit(e)), d, contact);
  }

  /** No action of staff or of the worker opens an enrollment of such a contact. */
  lemma {:induction false} StepOpensNone(w: World, ev: E.Event, contact: ContactId)
    requires Sound(w) && DoNotEngage(w, contact) && !ev.Drain?
    ensures forall id :: id in E.Step(w, ev).enrollments && E.Step(w, ev).enrollments[id].contact == contact && Open(E.Step(w, ev).enrollments[id])
              ==> id in w.enrollments && w.enrollments[id].contact == contact && Open(w.enrollments[id])
  {
    StepKeepsSound(w, ev);
    if ev.EnrollManually? && ev.campaign < |w.campaigns| && ev.contact in w.contacts {
      EnrollIsQuiet(w, ev.campaign, ev.contact, contact);
    }
  }

  lemma {:induction false} StepUnder(w: World, t: InFlight, ev: E.Event, contact: ContactId)
    requires Sound(w) && DoNotEngage(w, contact) && !ev.Drain? && t.done <= |t.batch| && NoneOpen(View(w, t), contact)
    ensures NoneOpen(View(E.Step(w, ev), t), contact)
  {
    StepOpensNone(w, ev, contact);
    var w' := E.Step(w, ev);
    forall id | id in View(w', t).enrollments && View(w', t).enrollments[id].contact == contact ensures !Open(View(w', t).enrollments[id]) {
      if id in t.mine {
        assert View(w, t).enrollments[id] == t.mine[id];
      } else if id in w.enrollments {
        assert View(w, t).enrollments[id] == w.enrollments[id];
      }
    }
  }

  lemma {:induction false} StepKeepsExiting(s: State, d: DrainId, ev: E.Event, contact: ContactId)
    requires Coherent(s) && DoNotEngage(s.w, contact) && Exiting(s, d, contact) && !ev.Drain?
    ensures Exiting(State(E.Step(s.w, ev), s.drains), d, contact)
  {
    StepUnder(s.w, s.drains[d], ev, contact);
    StepKeepsRequests(s.w, ev);
    OthersStillDoNot(s, State(E.Step(s.w, ev), s.drains), d, contact);
  }

  /** Neither commits nor gives up drain d. */
  predicate LeavesInFlight(m: Move, d: DrainId) {
    m != Commit(d) && m != Abort(d)
  }

  lemma {:induction false} MoveKeepsExiting(s: State, d: DrainId, m: Move, contact: ContactId)
    requires Coherent(s) && DoNotEngage(s.w, contact) && Exiting(s, d, contact) && LeavesInFlight(m, d)
    ensures Exiting(Moved(s, m), d, contact)
  {
    if Enabled(s, m) {
      match m
      case Begin(e) =>
      case Work(e, now) =>
        if e == d {
          SelfWorkKeepsExiting(s, d, now, contact);
        } else {
          OtherWorkKeepsExiting(s, d, e, now, contact);
        }
      case Commit(e) => OtherCommitKeepsExiting(s, d, e, contact);
      case Abort(e) =>
      case Other(ev) => StepKeepsExiting(s, d, ev, contact);
    }
  }

  lemma {:induction false} PlayKeepsExiting(s: State, d: DrainId, moves: seq<Move>, contact: ContactId)
    requires Coherent(s) && Exiting(s, d, contact) && Stays(s, moves, contact)
    requires forall k :: 0 <= k < |moves| ==> LeavesInFlight(moves[k], d)
    ensures Exiting(Play(s, moves), d, contact)
  {
    if moves != [] {
      var init := moves[..|moves| - 1];
      assert forall k :: 0 <= k < |init| ==> init[..k] == moves[..k];
      PlayKeepsExiting(s, d, init, contact);
      OneOpenWhateverOverlaps(s, init);
      MoveKeepsExiting(Play(s, init), d, moves[|moves| - 1], contact);
    }
  }

  // ---------------------------------------------------------------- from its commit on

  lemma {:induction false} StaysInParts(s: State, a: seq<Move>, b: seq<Move>, contact: ContactId)
    requires Stays(s, a + b, contact)
    ensures Stays(s, a, contact) && Stays(Play(s, a), b, contact)
    ensures b != [] ==> DoNotEngage(Play(s, a).w, contact)
  {
    forall k | 0 <= k < |a| ensures DoNotEngage(Play(s, a[..k]).w, contact) {
      assert (a + b)[..k] == a[..k];
    }
    forall k | 0 <= k < |b| ensures DoNotEngage(Play(Play(s, a), b[..k]).w, contact) {
      assert (a + b)[..|a| + k] == a + b[..k];
      PlayInParts(s, a, b[..k]);
    }
    if b != [] {
      assert b[..0] == [];
    }
  }

  lemma {:induction false} CommitLeavesAlone(s: State, d: DrainId, contact: ContactId)
    requires Coherent(s) && Exiting(s, d, contact) && Enabled(s, Commit(d))
    ensures LeftAlone(Moved(s, Commit(d)), contact)
  {
    OthersStillDoNot(s, Moved(s, Commit(d)), d, contact);
  }

  /** The law of the event, under overlap. Drain d has worked the exit of a do_not_engage contact and no other
      drain is then to bring an open enrollment of the contact. Whatever overlaps before and after d commits,
      from that commit on the contact has none, for as long as the status holds. */
  lemma {:induction false} ExitHoldsFromItsCommit(s: State, d: DrainId, before: seq<Move>, after: seq<Move>, contact: ContactId)
    requires Coherent(s) && Exiting(s, d, contact)
    requires forall k :: 0 <= k < |before| ==> LeavesInFlight(before[k], d)
    requires Enabled(Play(s, before), Commit(d)) && Stays(s, before + [Commit(d)] + after, contact)
    ensures LeftAlone(Play(s, before + [Commit(d)] + after), contact)
  {
    var mid := before + [Commit(d)];
    StaysInParts(s, mid, after, contact);
    StaysInParts(s, before, [Commit(d)], contact);
    PlayKeepsExiting(s, d, before, contact);
    OneOpenWhateverOverlaps(s, before);
    CommitLeavesAlone(Play(s, before), d, contact);
    PlayOneMore(s, before, Commit(d));
    OneOpenWhateverOverlaps(s, mid);
    PlayKeepsLeftAlone(Play(s, mid), after, contact);
    PlayInParts(s, mid, after);
  }

  /** Every way in which d may commit and others go on, while the status holds, leaves the contact with no
      open enrollment. */
  ghost predicate ExitWillHold(s: State, d: DrainId, contact: ContactId) {
    forall before, after :: (forall k :: 0 <= k < |before| ==> LeavesInFlight(before[k], d))
      && Enabled(Play(s, before), Commit(d)) && Stays(s, before + [Commit(d)] + after, contact)
      ==> NoneOpen(Play(s, before + [Commit(d)] + after).w, contact)
  }

  lemma {:induction false} AfterTheCommit(s: State, d: DrainId, e: DrainId, contact: ContactId)
    requires d in s.drains && e in s.drains && e != d && InRange(s.w, s.drains[e])
    requires s.drains[d].done == |s.drains[d].batch|
    ensures var s' := Moved(s, Commit(d));
      && s'.w == View(s.w, s.drains[d]) && e in s'.drains && s'.drains[e] == s.drains[e]
      && WillEnroll(s'.w, s'.drains[e], contact) == WillEnroll(s.w, s.drains[e], contact)
  {
    SameIntent(s.w, View(s.w, s.drains[d]), s.drains[e], contact);
  }

  lemma {:induction false} AnotherEnrolls(s: State, d: DrainId, e: DrainId, contact: ContactId) returns (rest: seq<Move>)
    requires Coherent(s) && DoNotEngage(s.w, contact) && d in s.drains && e in s.drains && e != d
    requires s.drains[d].done == |s.drains[d].batch| && NoneOpen(View(s.w, s.drains[d]), contact)
    requires WillEnroll(s.w, s.drains[e], contact)
    ensures DrainsOnly(rest) && !NoneOpen(Play(Moved(s, Commit(d)), rest).w, contact)
  {
    MoveKeepsCoherent(s, Commit(d));
    AfterTheCommit(s, d, e, contact);
    rest := ItCanEnroll(Moved(s, Commit(d)), e, contact);
  }

  lemma {:induction false} NotThen(s: State, d: DrainId, rest: seq<Move>, contact: ContactId)
    requires Enabled(s, Commit(d)) && Stays(s, [] + [Commit(d)] + rest, contact)
    requires !NoneOpen(Play(s, [] + [Commit(d)] + rest).w, contact)
    ensures !ExitWillHold(s, d, contact)
  {
    assert Play(s, []) == s;
  }

  lemma {:induction false} AnotherBreaksIt(s: State, d: DrainId, e: DrainId, contact: ContactId)
    requires Coherent(s) && DoNotEngage(s.w, contact) && d in s.drains && e in s.drains && e != d
    requires s.drains[d].done == |s.drains[d].batch| && NoneOpen(View(s.w, s.drains[d]), contact)
    requires WillEnroll(s.w, s.drains[e], contact)
    ensures !ExitWillHold(s, d, contact)
  {
    var rest := AnotherEnrolls(s, d, e, contact);
    assert [] + [Commit(d)] + rest == [Commit(d)] + rest;
    FirstMove(s, Commit(d), rest);
    DrainsKeepStatus(s, [Commit(d)] + rest, contact);
    NotThen(s, d, rest, contact);
  }

  /** When d's batch is worked off that condition is exact: the exit holds from d's commit on, however drains
      overlap, if and only if no other drain is to bring an open enrollment of the contact. */
  lemma {:induction false} ExitHoldsIff(s: State, d: DrainId, contact: ContactId)
    requires Coherent(s) && DoNotEngage(s.w, contact) && d in s.drains
    requires s.drains[d].done == |s.drains[d].batch| && NoneOpen(View(s.w, s.drains[d]), contact)
    ensures ExitWillHold(s, d, contact)
       <==> forall e :: e in s.drains && e != d ==> !WillEnroll(s.w, s.drains[e], contact)
  {
    if e :| e in s.drains && e != d && WillEnroll(s.w, s.drains[e], contact) {
      AnotherBreaksIt(s, d, e, contact);
    } else {
      assert Exiting(s, d, contact);
      forall before, after | (forall k :: 0 <= k < |before| ==> LeavesInFlight(before[k], d))
          && Enabled(Play(s, before), Commit(d)) && Stays(s, before + [Commit(d)] + after, contact)
        ensures NoneOpen(Play(s, before + [Commit(d)] + after).w, contact)
      {
        ExitHoldsFromItsCommit(s, d, before, after, contact);
      }
    }
  }

  // ---------------------------------------------------------------- an overlap that does it before the commit

  lemma {:induction false} TheFirstDrainCommits(s: State)
    requires s == State(Small(DO_NOT_ENGAGE, [TRIGGER, GOODBYE], 1), map[0 := InFlight([0], 1, PENDING), 1 := InFlight([1], 1, map[])])
    ensures Moved(s, Commit(0)) == State(Small(DO_NOT_ENGAGE, [TRIGGER.(drained := true), GOODBYE], 1).(enrollments := PENDING),
                                         map[1 := InFlight([1], 1, map[])])
  {
    var t := InFlight([0], 1, PENDING);
    assert s.w.enrollments + PENDING == PENDING;
    assert t.batch[..1] == [0] && MarkedRows(s.w.outbox, [0]) == [TRIGGER.(drained := true), GOODBYE];
    assert s.drains - {0} == map[1 := InFlight([1], 1, map[])];
  }

  lemma {:induction false} TheSecondDrainEnds(s: State)
    requires s == State(Small(DO_NOT_ENGAGE, [TRIGGER.(drained := true), GOODBYE], 1).(enrollments := PENDING), map[1 := InFlight([1], 1, map[])])
    ensures Moved(s, Commit(1))
         == State(Small(DO_NOT_ENGAGE, [TRIGGER.(drained := true), GOODBYE.(drained := true)], 1).(enrollments := PENDING), map[])
  {
    var t := InFlight([1], 1, map[]);
    assert s.w.enrollments + map[] == PENDING;
    assert t.batch[..1] == [1] && MarkedRows(s.w.outbox, [1]) == [TRIGGER.(drained := true), GOODBYE.(drained := true)];
    assert s.drains - {1} == map[];
  }

  lemma {:induction false} BothCommit(s: State)
    requires s == State(Small(DO_NOT_ENGAGE, [TRIGGER, GOODBYE], 1), map[0 := InFlight([0], 1, PENDING)])
    ensures Play(s, [Begin(1), Work(1, 0), Commit(0), Commit(1)])
         == State(Small(DO_NOT_ENGAGE, [TRIGGER.(drained := true), GOODBYE.(drained := true)], 1).(enrollments := PENDING), map[])
  {
    var s1 := Moved(s, Begin(1));
    var s2 := Moved(s1, Work(1, 0));
    TheSecondDrainBegins(s);
    TheSecondDrainFindsNothing(s1, s.drains);
    TheFirstDrainCommits(s2);
    TheSecondDrainEnds(Moved(s2, Commit(0)));
    PlayFour(s, Begin(1), Work(1, 0), Commit(0), Commit(1));
  }

  lemma {:induction false} PlayFour(s: State, a: Move, b: Move, c: Move, d: Move)
    ensures Play(s, [a, b, c, d]) == Moved(Moved(Moved(Moved(s, a), b), c), d)
  {
    FirstMove(s, a, [b, c, d]);
    FirstMove(Moved(s, a), b, [c, d]);
    FirstMove(Moved(Moved(s, a), b), c, [d]);
    FirstMove(Moved(Moved(Moved(s, a), b), c), d, []);
    assert [a] + [b, c, d] == [a, b, c, d] && [b] + [c, d] == [b, c, d] && [c] + [d] == [c, d] && [d] + [] == [d];
  }

  /** The same two drains, with the first one committing between the work and the commit of the second: both
      outbox rows are drained, no drain is under way, the contact is do_not_engage and has an open
      enrollment, before anybody could look at a state without one. */
  lemma {:induction false} OverlapEnrollsBeforeTheCommit() returns (end: State)
    ensures end == Play(State(Small("active", [TRIGGER], 0), map[]),
      [Begin(0), Work(0, 0)] + [Other(E.PutContact(0, Contact(Some(DO_NOT_ENGAGE), None))), Other(E.Emit(GOODBYE))]
      + [Begin(1), Work(1, 0), Commit(0), Commit(1)])
    ensures end.drains == map[] && end.w.outbox == [TRIGGER.(drained := true), GOODBYE.(drained := true)]
    ensures DoNotEngage(end.w, 0) && !NoneOpen(end.w, 0)
  {
    var s0 := State(Small("active", [TRIGGER], 0), map[]);
    var first, second := [Begin(0), Work(0, 0)], [Other(E.PutContact(0, Contact(Some(DO_NOT_ENGAGE), None))), Other(E.Emit(GOODBYE))];
    TheFirstDrainHolds();
    TheContactLeaves(Play(s0, first));
    PlayInParts(s0, first, second);
    BothCommit(Play(s0, first + second));
    PlayInParts(s0, first + second, [Begin(1), Work(1, 0), Commit(0), Commit(1)]);
    end := Play(s0, first + second + [Begin(1), Work(1, 0), Commit(0), Commit(1)]);
    assert end.w.enrollments[0] == PENDING[0] && Open(PENDING[0]);
  }
}
