/** Runs during which other sessions move matches of the same contact: when such a run puts an organisation
    forward again. */
module MatchMoves {
  import opened Options
  import opened MatchScoring
  import opened MatchRanking
  import opened MatchTables
  import opened MatchPlans
  import opened MatchLaws

  /** The contact's interests and the triage organisation stay the same. */
  datatype Frame = Frame(interests: seq<Interest>, triageOrg: OrgId)

  predicate Ours(f: Frame, interest: InterestId) {
    exists k :: 0 <= k < |f.interests| && f.interests[k].id == interest
  }

  /** A row that put an organisation forward, now in whatever status. */
  predicate PutForward(f: Frame, m: Match) {
    Ours(f, m.interest) && m.org != f.triageOrg
  }

  // ---------------------------------------------------------------- what histories keep

  predicate SamePair(a: Match, b: Match) {
    a.interest == b.interest && a.org == b.org
  }

  /** No organisation was put forward twice for the same interest. */
  predicate NeverTwice(f: Frame, matches: Matches) {
    forall i, j :: i in matches && j in matches && i != j && PutForward(f, matches[i]) ==> !SamePair(matches[i], matches[j])
  }

  /** Whoever was put forward and is no longer open is on the list. */
  predicate Listed(f: Frame, matches: Matches, excluded: set<OrgId>) {
    forall id :: id in matches && PutForward(f, matches[id]) ==> OpenStatus(matches[id].status) || matches[id].org in excluded
  }

  predicate ClosedSentAway(f: Frame, matches: Matches) {
    forall id :: id in matches && PutForward(f, matches[id]) ==> OpenStatus(matches[id].status) || SendsAway(matches[id].status)
  }

  predicate Sound(f: Frame, matches: Matches) {
    OneOpen(matches) && NeverTwice(f, matches) && ClosedSentAway(f, matches)
  }

  lemma {:induction false} DerivedLists(f: Frame, matches: Matches)
    requires ClosedSentAway(f, matches)
    ensures Listed(f, matches, Derived(matches, f.interests))
  {
  }

  /** What a plan wants is the triage organisation, or one that is not on the list. */
  predicate Fresh(f: Frame, p: Plan, excluded: set<OrgId>) {
    p.wanted.Some? ==> p.wanted.value.interest == p.interest && OpenStatus(p.wanted.value.status)
                       && p.wanted.value.org !in excluded - {f.triageOrg}
  }

  predicate AllFresh(f: Frame, plans: seq<Plan>, excluded: set<OrgId>) {
    forall k :: 0 <= k < |plans| ==> Fresh(f, plans[k], excluded)
  }

  lemma {:induction false} PlanIsFresh(f: Frame, t: Setting, i: Interest)
    requires t.triageOrg == f.triageOrg
    ensures Fresh(f, PlanOf(t, i), t.excluded)
  {
    if Wanted(t, i).Some? && Wanted(t, i).value.status.Recommended? {
      RecommendedPassesTheFilter(t, i);
    }
  }

  lemma {:induction false} PlansAreFresh(f: Frame, t: Setting, interests: seq<Interest>)
    requires t.triageOrg == f.triageOrg
    ensures AllFresh(f, Plans(t, interests), t.excluded)
  {
    forall k | 0 <= k < |interests| ensures Fresh(f, Plans(t, interests)[k], t.excluded) {
      PlanIsFresh(f, t, interests[k]);
    }
  }

  // ---------------------------------------------------------------- moves during a run

  /** What other sessions make of a table by moving matches: the rows and their pairs stay, and one that put an
      organisation forward only leaves the open statuses by being sent back or declined. */
  predicate MovedBy(f: Frame, matches: Matches, moved: Matches) {
    && moved.Keys == matches.Keys
    && forall id :: id in matches ==>
         && SamePair(matches[id], moved[id])
         && (PutForward(f, matches[id]) ==> OpenStatus(moved[id].status) || SendsAway(moved[id].status))
  }

  function AtInsert(s: State, p: Plan, env: Surroundings): State {
    Interfered(Audited(s, p), env.before)
  }

  predicate MovesAt(f: Frame, s: State, p: Plan, env: Surroundings) {
    && (env.before.Some? ==> MovedBy(f, s.matches, env.before.value))
    && (env.between.Some? ==> MovedBy(f, AtInsert(s, p, env).matches, env.between.value))
  }

  /** The ids to be drawn are new. */
  predicate NewIds(matches: Matches, envs: seq<Surroundings>) {
    && (forall k :: 0 <= k < |envs| ==> envs[k].id !in matches)
    && (forall j, k :: 0 <= j < k < |envs| ==> envs[j].id != envs[k].id)
  }

  /** A row that the run inserted is what some plan so far wanted. */
  predicate IsWanted(plans: seq<Plan>, envs: seq<Surroundings>, n: nat, id: MatchId, m: Match)
    requires n <= |plans| == |envs|
  {
    exists l :: 0 <= l < n && id == envs[l].id && plans[l].wanted == Some(m)
  }

  predicate SamePairs(matches: Matches, matches': Matches) {
    forall id :: id in matches ==> id in matches' && SamePair(matches[id], matches'[id])
  }

  /** The rows after n interests: those of the start, moved perhaps, and the session's own. */
  predicate Tracks(f: Frame, start: Matches, s: State, plans: seq<Plan>, envs: seq<Surroundings>, n: nat)
    requires n <= |plans| == |envs|
  {
    && OneOpen(s.matches) && ClosedSentAway(f, s.matches) && SamePairs(start, s.matches)
    && forall id :: id in s.matches && id !in start ==> id in s.own && IsWanted(plans, envs, n, id, s.matches[id])
  }

  lemma {:induction false} MoveKeepsTracks(f: Frame, start: Matches, s: State, moved: Option<Matches>, plans: seq<Plan>, envs: seq<Surroundings>, n: nat)
    requires n <= |plans| == |envs| && Tracks(f, start, s, plans, envs, n)
    requires moved.Some? ==> MovedBy(f, s.matches, moved.value)
    ensures Tracks(f, start, Interfered(s, moved), plans, envs, n)
    ensures SamePairs(s.matches, Interfered(s, moved).matches) && Interfered(s, moved).matches.Keys == s.matches.Keys
  {
  }

  lemma {:induction false} WantedOneMore(plans: seq<Plan>, envs: seq<Surroundings>, n: nat, id: MatchId, m: Match)
    requires n < |plans| == |envs| && (IsWanted(plans, envs, n, id, m) || (id == envs[n].id && plans[n].wanted == Some(m)))
    ensures IsWanted(plans, envs, n + 1, id, m)
  {
  }

  predicate Places(s: State, p: Plan, env: Surroundings) {
    p.wanted.Some? && !HasOpen(AtInsert(s, p, env).matches, p.interest)
  }

  lemma {:induction false} NewIdIsFree(f: Frame, start: Matches, s: State, plans: seq<Plan>, envs: seq<Surroundings>, n: nat)
    requires n < |plans| == |envs| && Tracks(f, start, s, plans, envs, n) && NewIds(start, envs)
    ensures envs[n].id !in s.matches
  {
  }

  /** One interest, seen as moves and at most one new row. */
  lemma {:induction false} StepPlaces(f: Frame, s: State, p: Plan, env: Surroundings)
    requires MovesAt(f, s, p, env) && Sensible(p) && env.id !in s.matches
    ensures SamePairs(s.matches, Processed(s, p, env).matches)
    ensures env.id in Processed(s, p, env).matches <==> Places(s, p, env)
    ensures Places(s, p, env) ==> Processed(s, p, env).matches[env.id] == p.wanted.value
  {
  }

  lemma {:induction false} PlacingKeepsTracks(f: Frame, start: Matches, s: State, plans: seq<Plan>, envs: seq<Surroundings>, n: nat, m: Match)
    requires n < |plans| == |envs| && Tracks(f, start, s, plans, envs, n) && envs[n].id !in s.matches && NewIds(start, envs)
    requires plans[n].wanted == Some(m) && OpenStatus(m.status) && !HasOpen(s.matches, m.interest)
    ensures Tracks(f, start, Flushed(s).(matches := s.matches[envs[n].id := m], own := s.own + {envs[n].id}), plans, envs, n + 1)
  {
    var s' := Flushed(s).(matches := s.matches[envs[n].id := m], own := s.own + {envs[n].id});
    forall id | id in s'.matches && id !in start ensures id in s'.own && IsWanted(plans, envs, n + 1, id, s'.matches[id]) {
      WantedOneMore(plans, envs, n, id, s'.matches[id]);
    }
  }

  lemma {:induction false} SameRowsKeepTracks(f: Frame, start: Matches, s: State, s': State, plans: seq<Plan>, envs: seq<Surroundings>, n: nat)
    requires n < |plans| == |envs| && Tracks(f, start, s, plans, envs, n) && s'.matches == s.matches && s'.own == s.own
    ensures Tracks(f, start, s', plans, envs, n) && Tracks(f, start, s', plans, envs, n + 1)
  {
    forall id | id in s'.matches && id !in start ensures IsWanted(plans, envs, n + 1, id, s'.matches[id]) {
      WantedOneMore(plans, envs, n, id, s'.matches[id]);
    }
  }

  lemma {:induction false} ConflictKeepsTracks(f: Frame, start: Matches, at: State, plans: seq<Plan>, envs: seq<Surroundings>, n: nat)
    requires n < |plans| == |envs| && Tracks(f, start, at, plans, envs, n)
    requires envs[n].between.Some? ==> MovedBy(f, at.matches, envs[n].between.value)
    ensures Tracks(f, start, Interfered(at.(pending := []), envs[n].between), plans, envs, n + 1)
  {
    var undone := at.(pending := []);
    SameRowsKeepTracks(f, start, at, undone, plans, envs, n);
    MoveKeepsTracks(f, start, undone, envs[n].between, plans, envs, n);
    var after := Interfered(undone, envs[n].between);
    SameRowsKeepTracks(f, start, after, after, plans, envs, n);
  }

  lemma {:induction false} AtInsertTracks(f: Frame, start: Matches, s: State, plans: seq<Plan>, envs: seq<Surroundings>, n: nat)
    requires n < |plans| == |envs| && Tracks(f, start, s, plans, envs, n) && MovesAt(f, s, plans[n], envs[n])
    ensures Tracks(f, start, AtInsert(s, plans[n], envs[n]), plans, envs, n)
    ensures AtInsert(s, plans[n], envs[n]).matches.Keys == s.matches.Keys
  {
    SameRowsKeepTracks(f, start, s, Audited(s, plans[n]), plans, envs, n);
    MoveKeepsTracks(f, start, Audited(s, plans[n]), envs[n].before, plans, envs, n);
  }

  /** What becomes of an interest, by whether its row is placed. */
  lemma {:induction false} ProcessedCases(s: State, p: Plan, env: Surroundings)
    requires Sensible(p) && env.id !in AtInsert(s, p, env).matches
    ensures var at := AtInsert(s, p, env);
      Processed(s, p, env) ==
        if p.wanted.None? then Audited(s, p)
        else if HasOpen(at.matches, p.interest) then Interfered(at.(pending := []), env.between)
        else Flushed(at).(matches := at.matches[env.id := p.wanted.value], own := at.own + {env.id})
  {
  }

  lemma {:induction false} StepTracks(f: Frame, start: Matches, s: State, plans: seq<Plan>, envs: seq<Surroundings>, n: nat)
    requires n < |plans| == |envs| && Tracks(f, start, s, plans, envs, n) && NewIds(start, envs)
    requires MovesAt(f, s, plans[n], envs[n]) && Sensible(plans[n])
    ensures Tracks(f, start, Processed(s, plans[n], envs[n]), plans, envs, n + 1)
  {
    var p, env := plans[n], envs[n];
    var at := AtInsert(s, p, env);
    NewIdIsFree(f, start, s, plans, envs, n);
    AtInsertTracks(f, start, s, plans, envs, n);
    ProcessedCases(s, p, env);
    if p.wanted.None? {
      SameRowsKeepTracks(f, start, s, Audited(s, p), plans, envs, n);
    } else if HasOpen(at.matches, p.interest) {
      ConflictKeepsTracks(f, start, at, plans, envs, n);
    } else {
      PlacingKeepsTracks(f, start, at, plans, envs, n, p.wanted.value);
    }
  }

  /** The session after n interests of a run that began on this table. */
  ghost function After(start: Matches, plans: seq<Plan>, envs: seq<Surroundings>, n: nat): State
    requires n <= |plans| == |envs|
  {
    ProcessedUpTo(State(start, {}, [], []), plans, envs, n)
  }

  lemma {:induction false} AfterOneMore(start: Matches, plans: seq<Plan>, envs: seq<Surroundings>, n: nat)
    requires n < |plans| == |envs|
    ensures After(start, plans, envs, n + 1) == Processed(After(start, plans, envs, n), plans[n], envs[n])
  {
  }

  lemma {:induction false} TracksAtStart(f: Frame, start: Matches, plans: seq<Plan>, envs: seq<Surroundings>)
    requires |plans| == |envs| && OneOpen(start) && ClosedSentAway(f, start)
    ensures After(start, plans, envs, 0) == State(start, {}, [], []) && Tracks(f, start, After(start, plans, envs, 0), plans, envs, 0)
  {
  }

  /** Around every insert of the run others at most move matches. */
  ghost predicate MovesOnly(f: Frame, start: Matches, plans: seq<Plan>, envs: seq<Surroundings>)
    requires |plans| == |envs|
  {
    forall k {:trigger MovesAt(f, After(start, plans, envs, k), plans[k], envs[k])} :: 0 <= k < |plans| ==>
      MovesAt(f, After(start, plans, envs, k), plans[k], envs[k])
  }

  lemma {:induction false} MovesOnlyAt(f: Frame, start: Matches, plans: seq<Plan>, envs: seq<Surroundings>, k: nat)
    requires k < |plans| == |envs| && MovesOnly(f, start, plans, envs)
    ensures MovesAt(f, After(start, plans, envs, k), plans[k], envs[k])
  {
  }

  lemma {:induction false} RunTracks(f: Frame, start: Matches, plans: seq<Plan>, envs: seq<Surroundings>, n: nat)
    requires n <= |plans| == |envs| && OneOpen(start) && ClosedSentAway(f, start) && NewIds(start, envs) && AllSensible(plans)
    requires MovesOnly(f, start, plans, envs)
    ensures Tracks(f, start, After(start, plans, envs, n), plans, envs, n)
  {
    if n == 0 {
      TracksAtStart(f, start, plans, envs);
    } else {
      RunTracks(f, start, plans, envs, n - 1);
      MovesOnlyAt(f, start, plans, envs, n - 1);
      StepTracks(f, start, After(start, plans, envs, n - 1), plans, envs, n - 1);
      AfterOneMore(start, plans, envs, n - 1);
    }
  }

  // ---------------------------------------------------------------- when an organisation comes back

  /** The run placed a row for interest k whose organisation had a row for it at the start. */
  ghost predicate RepeatsAt(f: Frame, start: Matches, plans: seq<Plan>, envs: seq<Surroundings>, k: nat)
    requires k < |plans| == |envs|
  {
    var after := After(start, plans, envs, k + 1).matches;
    && envs[k].id in after && PutForward(f, after[envs[k].id])
    && exists id :: id in start && SamePair(start[id], after[envs[k].id])
  }

  /** The match of the interest that was open at the start is with the organisation wanted now, and when the
      row is inserted no match of the interest is open any more. */
  ghost predicate ReopensAt(f: Frame, start: Matches, plans: seq<Plan>, envs: seq<Surroundings>, k: nat)
    requires k < |plans| == |envs|
  {
    && plans[k].wanted.Some? && PutForward(f, plans[k].wanted.value)
    && (exists id :: id in start && OpenFor(start[id], plans[k].interest) && start[id].org == plans[k].wanted.value.org)
    && !HasOpen(AtInsert(After(start, plans, envs, k), plans[k], envs[k]).matches, plans[k].interest)
  }

  /** What a default run from a table the histories keep works with. */
  ghost predicate DefaultRun(f: Frame, start: Matches, plans: seq<Plan>, envs: seq<Surroundings>, excluded: set<OrgId>) {
    && |plans| == |envs| && Sound(f, start) && NewIds(start, envs) && AllSensible(plans) && MovesOnly(f, start, plans, envs)
    && AllFresh(f, plans, excluded) && Listed(f, start, excluded)
  }

  lemma {:induction false} PlacedRow(f: Frame, start: Matches, plans: seq<Plan>, envs: seq<Surroundings>, excluded: set<OrgId>, k: nat)
    requires DefaultRun(f, start, plans, envs, excluded) && k < |plans|
    ensures var before, after := After(start, plans, envs, k), After(start, plans, envs, k + 1);
      && envs[k].id !in before.matches && SamePairs(before.matches, after.matches)
      && (envs[k].id in after.matches <==> Places(before, plans[k], envs[k]))
      && (Places(before, plans[k], envs[k]) ==> after.matches[envs[k].id] == plans[k].wanted.value)
  {
    RunTracks(f, start, plans, envs, k);
    NewIdIsFree(f, start, After(start, plans, envs, k), plans, envs, k);
    MovesOnlyAt(f, start, plans, envs, k);
    StepPlaces(f, After(start, plans, envs, k), plans[k], envs[k]);
    AfterOneMore(start, plans, envs, k);
  }

  /** An organisation that a plan wants and that was put forward for the interest before was still open. */
  lemma {:induction false} WantedAgainWasOpen(f: Frame, start: Matches, p: Plan, excluded: set<OrgId>, id: MatchId)
    requires Listed(f, start, excluded) && Fresh(f, p, excluded) && p.wanted.Some? && PutForward(f, p.wanted.value)
    requires id in start && SamePair(start[id], p.wanted.value)
    ensures OpenFor(start[id], p.interest)
  {
  }

  /** An interest is put forward to an organisation again if and only if its match that was open at the start
      is with the organisation the plan wants and no match of it is open at the insert. */
  lemma {:induction false} RepeatsIffReopened(f: Frame, start: Matches, plans: seq<Plan>, envs: seq<Surroundings>, excluded: set<OrgId>, k: nat)
    requires DefaultRun(f, start, plans, envs, excluded) && k < |plans|
    ensures RepeatsAt(f, start, plans, envs, k) <==> ReopensAt(f, start, plans, envs, k)
  {
    PlacedRow(f, start, plans, envs, excluded, k);
    var p := plans[k];
    if RepeatsAt(f, start, plans, envs, k) {
      var id :| id in start && SamePair(start[id], p.wanted.value);
      WantedAgainWasOpen(f, start, p, excluded, id);
    }
    if ReopensAt(f, start, plans, envs, k) {
      var id :| id in start && OpenFor(start[id], p.interest) && start[id].org == p.wanted.value.org;
      assert SamePair(start[id], p.wanted.value);
    }
  }

  // ---------------------------------------------------------------- a whole run

  lemma {:induction false} RowsStay(f: Frame, start: Matches, plans: seq<Plan>, envs: seq<Surroundings>, excluded: set<OrgId>, m: nat, n: nat)
    requires DefaultRun(f, start, plans, envs, excluded) && m <= n <= |plans|
    ensures SamePairs(After(start, plans, envs, m).matches, After(start, plans, envs, n).matches)
  {
    if m < n {
      RowsStay(f, start, plans, envs, excluded, m, n - 1);
      PlacedRow(f, start, plans, envs, excluded, n - 1);
    }
  }

  /** A row placed for one interest is no second one of a row already placed for another. */
  lemma {:induction false} PlacedIsNew(f: Frame, start: Matches, plans: seq<Plan>, envs: seq<Surroundings>, excluded: set<OrgId>, k: nat, id: MatchId)
    requires DefaultRun(f, start, plans, envs, excluded) && k < |plans| && DistinctInterests(plans)
    requires !RepeatsAt(f, start, plans, envs, k) && Places(After(start, plans, envs, k), plans[k], envs[k])
    requires PutForward(f, plans[k].wanted.value) && id in After(start, plans, envs, k).matches
    ensures !SamePair(After(start, plans, envs, k).matches[id], plans[k].wanted.value)
  {
    PlacedRow(f, start, plans, envs, excluded, k);
    RunTracks(f, start, plans, envs, k);
    if id !in start {
      var l :| 0 <= l < k && id == envs[l].id && plans[l].wanted == Some(After(start, plans, envs, k).matches[id]);
      assert Fresh(f, plans[l], excluded) && Fresh(f, plans[k], excluded);
    } else {
      RowsStay(f, start, plans, envs, excluded, 0, k);
    }
  }

  lemma {:induction false} StepKeepsNeverTwice(f: Frame, start: Matches, plans: seq<Plan>, envs: seq<Surroundings>, excluded: set<OrgId>, k: nat)
    requires DefaultRun(f, start, plans, envs, excluded) && k < |plans| && DistinctInterests(plans)
    requires !RepeatsAt(f, start, plans, envs, k) && NeverTwice(f, After(start, plans, envs, k).matches)
    ensures NeverTwice(f, After(start, plans, envs, k + 1).matches)
  {
    var before, after := After(start, plans, envs, k).matches, After(start, plans, envs, k + 1).matches;
    PlacedRow(f, start, plans, envs, excluded, k);
    KeysAfter(f, start, plans, envs, excluded, k);
    forall i, j | i in after && j in after && i != j && PutForward(f, after[i]) ensures !SamePair(after[i], after[j]) {
      if i in before && j in before {
        assert SamePair(before[i], after[i]) && SamePair(before[j], after[j]);
      } else if i in before {
        if PutForward(f, plans[k].wanted.value) {
          PlacedIsNew(f, start, plans, envs, excluded, k, i);
        }
      } else {
        PlacedIsNew(f, start, plans, envs, excluded, k, j);
      }
    }
  }

  lemma {:induction false} KeysAfter(f: Frame, start: Matches, plans: seq<Plan>, envs: seq<Surroundings>, excluded: set<OrgId>, k: nat)
    requires DefaultRun(f, start, plans, envs, excluded) && k < |plans|
    ensures After(start, plans, envs, k + 1).matches.Keys <= After(start, plans, envs, k).matches.Keys + {envs[k].id}
  {
    RunTracks(f, start, plans, envs, k);
    MovesOnlyAt(f, start, plans, envs, k);
    AfterOneMore(start, plans, envs, k);
  }

  lemma {:induction false} NoRepeatNeverTwice(f: Frame, start: Matches, plans: seq<Plan>, envs: seq<Surroundings>, excluded: set<OrgId>, n: nat)
    requires DefaultRun(f, start, plans, envs, excluded) && n <= |plans| && DistinctInterests(plans)
    requires forall k :: 0 <= k < n ==> !RepeatsAt(f, start, plans, envs, k)
    ensures NeverTwice(f, After(start, plans, envs, n).matches)
  {
    if n == 0 {
      TracksAtStart(f, start, plans, envs);
    } else {
      NoRepeatNeverTwice(f, start, plans, envs, excluded, n - 1);
      StepKeepsNeverTwice(f, start, plans, envs, excluded, n - 1);
    }
  }

  lemma {:induction false} RepeatIsTwice(f: Frame, start: Matches, plans: seq<Plan>, envs: seq<Surroundings>, excluded: set<OrgId>, k: nat)
    requires DefaultRun(f, start, plans, envs, excluded) && k < |plans| && RepeatsAt(f, start, plans, envs, k)
    ensures !NeverTwice(f, After(start, plans, envs, |plans|).matches)
  {
    var mid, end := After(start, plans, envs, k + 1).matches, After(start, plans, envs, |plans|).matches;
    RowsStay(f, start, plans, envs, excluded, 0, |plans|);
    RowsStay(f, start, plans, envs, excluded, k + 1, |plans|);
    var id :| id in start && SamePair(start[id], mid[envs[k].id]);
    assert id != envs[k].id;
    assert SamePair(end[envs[k].id], end[id]) && PutForward(f, end[envs[k].id]);
  }

  /** A default run, with other sessions moving matches under it, keeps the law of no second recommendation
      if and only if it reopens no interest. */
  lemma {:induction false} RunKeepsSoundIff(f: Frame, start: Matches, plans: seq<Plan>, envs: seq<Surroundings>, excluded: set<OrgId>)
    requires DefaultRun(f, start, plans, envs, excluded) && DistinctInterests(plans)
    ensures Sound(f, After(start, plans, envs, |plans|).matches)
       <==> forall k :: 0 <= k < |plans| ==> !ReopensAt(f, start, plans, envs, k)
  {
    RunTracks(f, start, plans, envs, |plans|);
    forall k | 0 <= k < |plans| ensures RepeatsAt(f, start, plans, envs, k) <==> ReopensAt(f, start, plans, envs, k) {
      RepeatsIffReopened(f, start, plans, envs, excluded, k);
    }
    if k :| 0 <= k < |plans| && ReopensAt(f, start, plans, envs, k) {
      RepeatIsTwice(f, start, plans, envs, excluded, k);
    } else {
      NoRepeatNeverTwice(f, start, plans, envs, excluded, |plans|);
    }
  }

  /** A run that nobody disturbs reopens nothing. */
  lemma {:induction false} QuietNeverReopens(f: Frame, start: Matches, plans: seq<Plan>, envs: seq<Surroundings>, k: nat)
    requires k < |plans| == |envs| && QuietRun(start, envs) && AllSensible(plans)
    ensures !ReopensAt(f, start, plans, envs, k)
  {
    QuietUpTo(State(start, {}, [], []), plans, envs, k);
    if HasOpen(start, plans[k].interest) {
      ExtendsKeepsOpen(start, After(start, plans, envs, k).matches, plans[k].interest);
    }
  }
}
