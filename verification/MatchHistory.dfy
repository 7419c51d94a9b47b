/** Repeated default runs for one contact, with matches moving and organisations changing in between. */
module MatchHistory {
  import opened Options
  import opened MatchScoring
  import opened MatchRanking
  import opened MatchTables
  import opened MatchPlans
  import opened MatchLaws
  import opened MatchMoves

  datatype Event =
    | RunMatcher(adopter: Adopter, candidates: seq<Candidate>, weights: Weights, run: RunId, envs: seq<Surroundings>)
    | Move(id: MatchId, status: Status)
    | Elsewhere(id: MatchId, row: Match)

  function DefaultSetting(f: Frame, matches: Matches, ev: Event): Setting
    requires ev.RunMatcher?
  {
    Setting(ev.adopter, ev.candidates, f.triageOrg, Derived(matches, f.interests), ev.weights, ev.run)
  }

  function PlansFor(f: Frame, matches: Matches, ev: Event): seq<Plan>
    requires ev.RunMatcher?
  {
    Plans(DefaultSetting(f, matches, ev), f.interests)
  }

  /** A run may be disturbed by moves, as long as it reopens no interest, and never sees the triage
      organisation among the candidates. A match that put an organisation forward only leaves the open
      statuses by being sent back or declined. */
  ghost predicate Allowed(f: Frame, matches: Matches, ev: Event) {
    match ev
    case RunMatcher(_, candidates, _, _, envs) =>
      && |envs| == |f.interests| && NewIds(matches, envs) && MovesOnly(f, matches, PlansFor(f, matches, ev), envs)
      && (forall k :: 0 <= k < |envs| ==> !ReopensAt(f, matches, PlansFor(f, matches, ev), envs, k))
      && forall c :: c in candidates ==> c.org.id != f.triageOrg
    case Move(id, status) =>
      && id in matches && OneOpen(matches[id := matches[id].(status := status)])
      && (PutForward(f, matches[id]) ==> OpenStatus(status) || SendsAway(status))
    case Elsewhere(id, row) =>
      id !in matches && !Ours(f, row.interest) && OneOpen(matches[id := row])
  }

  ghost function RunResult(matches: Matches, plans: seq<Plan>, envs: seq<Surroundings>): Matches
    requires |plans| == |envs|
  {
    ProcessedAll(State(matches, {}, [], []), plans, envs).matches
  }

  ghost function Step(f: Frame, matches: Matches, ev: Event): Matches {
    if !Allowed(f, matches, ev) then matches
    else match ev
      case RunMatcher(_, _, _, _, envs) => RunResult(matches, PlansFor(f, matches, ev), envs)
      case Move(id, status) => matches[id := matches[id].(status := status)]
      case Elsewhere(id, row) => matches[id := row]
  }

  ghost function History(f: Frame, matches: Matches, events: seq<Event>): Matches {
    if events == [] then matches else Step(f, History(f, matches, events[..|events| - 1]), events[|events| - 1])
  }

  // ---------------------------------------------------------------- no second recommendation

  /** Interest ids are primary keys. */
  predicate DistinctIds(f: Frame) {
    forall i, j :: 0 <= i < j < |f.interests| ==> f.interests[i].id != f.interests[j].id
  }

  lemma {:induction false} IsDefaultRun(f: Frame, matches: Matches, ev: Event)
    requires Sound(f, matches) && ev.RunMatcher? && |ev.envs| == |f.interests| && NewIds(matches, ev.envs)
    requires MovesOnly(f, matches, PlansFor(f, matches, ev), ev.envs)
    ensures DefaultRun(f, matches, PlansFor(f, matches, ev), ev.envs, Derived(matches, f.interests))
    ensures DistinctIds(f) ==> DistinctInterests(PlansFor(f, matches, ev))
  {
    var t := DefaultSetting(f, matches, ev);
    DerivedLists(f, matches);
    PlansAreFresh(f, t, f.interests);
    PlansAreSensible(t, f.interests);
  }

  /** For a run whose interference only moves matches: the table stays free of second recommendations if and
      only if the run reopens no interest. */
  lemma {:induction false} DisturbedRunIff(f: Frame, matches: Matches, ev: Event)
    requires Sound(f, matches) && DistinctIds(f) && ev.RunMatcher? && |ev.envs| == |f.interests| && NewIds(matches, ev.envs)
    requires MovesOnly(f, matches, PlansFor(f, matches, ev), ev.envs)
    ensures Sound(f, RunResult(matches, PlansFor(f, matches, ev), ev.envs))
       <==> forall k :: 0 <= k < |ev.envs| ==> !ReopensAt(f, matches, PlansFor(f, matches, ev), ev.envs, k)
  {
    IsDefaultRun(f, matches, ev);
    RunKeepsSoundIff(f, matches, PlansFor(f, matches, ev), ev.envs, Derived(matches, f.interests));
  }

  /** Runs that nobody disturbs are among those allowed. */
  lemma {:induction false} QuietIsAllowed(f: Frame, matches: Matches, ev: Event)
    requires ev.RunMatcher? && |ev.envs| == |f.interests| && QuietRun(matches, ev.envs)
    requires forall c :: c in ev.candidates ==> c.org.id != f.triageOrg
    ensures Allowed(f, matches, ev)
  {
    var plans := PlansFor(f, matches, ev);
    PlansAreSensible(DefaultSetting(f, matches, ev), f.interests);
    forall k | 0 <= k < |ev.envs| ensures !ReopensAt(f, matches, plans, ev.envs, k) {
      QuietNeverReopens(f, matches, plans, ev.envs, k);
    }
  }

  lemma {:induction false} MoveKeepsSound(f: Frame, matches: Matches, ev: Event)
    requires Sound(f, matches) && !ev.RunMatcher?
    ensures Sound(f, Step(f, matches, ev))
  {
  }

  /** Over every history, disturbed runs included, no interest is recommended to the same organisation twice. */
  lemma {:induction false} NeverRecommendedTwice(f: Frame, matches: Matches, events: seq<Event>)
    requires Sound(f, matches) && DistinctIds(f)
    ensures Sound(f, History(f, matches, events))
  {
    if events != [] {
      var before := History(f, matches, events[..|events| - 1]);
      NeverRecommendedTwice(f, matches, events[..|events| - 1]);
      var ev := events[|events| - 1];
      if ev.RunMatcher? {
        if Allowed(f, before, ev) {
          DisturbedRunIff(f, before, ev);
        }
      } else {
        MoveKeepsSound(f, before, ev);
      }
    }
  }

  // ---------------------------------------------------------------- the bound

  function Recommendations(f: Frame, matches: Matches, interest: InterestId): set<MatchId> {
    set id | id in matches && matches[id].interest == interest && matches[id].org != f.triageOrg
  }

  predicate WithinOrgs(f: Frame, matches: Matches, orgs: set<OrgId>) {
    forall id :: id in matches && PutForward(f, matches[id]) ==> matches[id].org in orgs
  }

  lemma {:induction false} PigeonHole(matches: Matches, ids: set<MatchId>, orgs: set<OrgId>)
    requires forall id :: id in ids ==> id in matches && matches[id].org in orgs
    requires forall i, j :: i in ids && j in ids && i != j ==> matches[i].org != matches[j].org
    ensures |ids| <= |orgs|
  {
    if ids != {} {
      var id :| id in ids;
      PigeonHole(matches, ids - {id}, orgs - {matches[id].org});
    }
  }

  predicate WantsWithin(f: Frame, p: Plan, orgs: set<OrgId>) {
    p.wanted.Some? ==> p.wanted.value.org in orgs || p.wanted.value.org == f.triageOrg
  }

  lemma {:induction false} PlanWantsWithin(f: Frame, t: Setting, i: Interest, orgs: set<OrgId>)
    requires t.triageOrg == f.triageOrg && forall c :: c in t.candidates ==> c.org.id in orgs
    ensures WantsWithin(f, PlanOf(t, i), orgs)
  {
    if Wanted(t, i).Some? && Wanted(t, i).value.status.Recommended? {
      RecommendedPassesTheFilter(t, i);
    }
  }

  lemma {:induction false} RunStaysWithin(f: Frame, start: Matches, plans: seq<Plan>, envs: seq<Surroundings>, excluded: set<OrgId>, orgs: set<OrgId>)
    requires DefaultRun(f, start, plans, envs, excluded)
    requires WithinOrgs(f, start, orgs) && forall k :: 0 <= k < |plans| ==> WantsWithin(f, plans[k], orgs)
    ensures WithinOrgs(f, RunResult(start, plans, envs), orgs)
  {
    RunTracks(f, start, plans, envs, |plans|);
    var after := RunResult(start, plans, envs);
    assert after == After(start, plans, envs, |plans|).matches;
    forall id | id in after && PutForward(f, after[id]) ensures after[id].org in orgs {
      if id in start {
        assert SamePair(start[id], after[id]) && PutForward(f, start[id]);
      } else {
        var l :| 0 <= l < |plans| && id == envs[l].id && plans[l].wanted == Some(after[id]);
        assert WantsWithin(f, plans[l], orgs);
      }
    }
  }

  predicate LoadsWithin(events: seq<Event>, orgs: set<OrgId>) {
    forall k, c :: 0 <= k < |events| && events[k].RunMatcher? && c in events[k].candidates ==> c.org.id in orgs
  }

  lemma {:induction false} HistoryStaysWithin(f: Frame, matches: Matches, events: seq<Event>, orgs: set<OrgId>)
    requires Sound(f, matches) && DistinctIds(f) && WithinOrgs(f, matches, orgs) && LoadsWithin(events, orgs)
    ensures WithinOrgs(f, History(f, matches, events), orgs)
  {
    if events != [] {
      var before := History(f, matches, events[..|events| - 1]);
      HistoryStaysWithin(f, matches, events[..|events| - 1], orgs);
      var ev := events[|events| - 1];
      if ev.RunMatcher? && Allowed(f, before, ev) {
        var t := DefaultSetting(f, before, ev);
        var plans := PlansFor(f, before, ev);
        NeverRecommendedTwice(f, matches, events[..|events| - 1]);
        IsDefaultRun(f, before, ev);
        forall k | 0 <= k < |plans| ensures WantsWithin(f, plans[k], orgs) {
          PlanWantsWithin(f, t, f.interests[k], orgs);
        }
        RunStaysWithin(f, before, plans, ev.envs, Derived(before, f.interests), orgs);
      }
    }
  }

  /** However long the history, an interest is recommended at most once per organisation ever loaded. */
  lemma {:induction false} RecommendationsAreBounded(f: Frame, matches: Matches, events: seq<Event>, orgs: set<OrgId>, interest: InterestId)
    requires Sound(f, matches) && DistinctIds(f) && WithinOrgs(f, matches, orgs) && LoadsWithin(events, orgs) && Ours(f, interest)
    ensures |Recommendations(f, History(f, matches, events), interest)| <= |orgs|
  {
    NeverRecommendedTwice(f, matches, events);
    HistoryStaysWithin(f, matches, events, orgs);
    var after := History(f, matches, events);
    var ids := Recommendations(f, after, interest);
    forall i, j | i in ids && j in ids && i != j ensures after[i].org != after[j].org {
      assert PutForward(f, after[i]) && !SamePair(after[i], after[j]);
    }
    PigeonHole(after, ids, orgs);
  }

  // ---------------------------------------------------------------- then triage

  lemma {:induction false} PlacedAtItsTurn(s: State, plans: seq<Plan>, envs: seq<Surroundings>, n: nat, k: nat)
    requires k < n <= |plans| == |envs| && QuietRun(s.matches, envs) && AllSensible(plans) && DistinctInterests(plans)
    requires plans[k].wanted.Some? && !HasOpen(s.matches, plans[k].interest)
    ensures var m := ProcessedUpTo(s, plans, envs, n).matches; envs[k].id in m && m[envs[k].id] == plans[k].wanted.value
  {
    QuietUpTo(s, plans, envs, n - 1);
    var before := ProcessedUpTo(s, plans, envs, n - 1);
    QuietStep(before, plans[n - 1], envs[n - 1]);
    if k < n - 1 {
      PlacedAtItsTurn(s, plans, envs, n - 1, k);
    } else {
      NotYetPlaced(s, plans, envs, k, k);
    }
  }

  lemma {:induction false} NotYetPlaced(s: State, plans: seq<Plan>, envs: seq<Surroundings>, n: nat, k: nat)
    requires n <= k < |plans| == |envs| && QuietRun(s.matches, envs) && AllSensible(plans) && DistinctInterests(plans)
    requires !HasOpen(s.matches, plans[k].interest)
    ensures !HasOpen(ProcessedUpTo(s, plans, envs, n).matches, plans[k].interest)
  {
    if n > 0 {
      NotYetPlaced(s, plans, envs, n - 1, k);
      QuietUpTo(s, plans, envs, n - 1);
      QuietStep(ProcessedUpTo(s, plans, envs, n - 1), plans[n - 1], envs[n - 1]);
      assert plans[n - 1].interest != plans[k].interest;
    }
  }

  /** Once every organisation on offer has been recommended to an interest and none of these matches is
      open, the next run sends the interest to triage. */
  lemma {:induction false} ThenTriage(f: Frame, matches: Matches, ev: Event, k: nat)
    requires Sound(f, matches) && DistinctIds(f) && ev.RunMatcher? && Allowed(f, matches, ev) && QuietRun(matches, ev.envs)
    requires k < |f.interests| && !HasOpen(matches, f.interests[k].id)
    requires forall c :: c in ev.candidates ==>
               exists id :: id in matches && matches[id].interest == f.interests[k].id && matches[id].org == c.org.id
    ensures ev.envs[k].id in Step(f, matches, ev)
         && Step(f, matches, ev)[ev.envs[k].id] == Match(f.interests[k].id, f.triageOrg, Triage)
  {
    var t := DefaultSetting(f, matches, ev);
    var i := f.interests[k];
    forall c | c in ev.candidates ensures c.org.id in t.excluded {
      var id :| id in matches && matches[id].interest == i.id && matches[id].org == c.org.id;
      assert PutForward(f, matches[id]);
      assert !OpenFor(matches[id], i.id);
      DerivedLists(f, matches);
    }
    if i.people.Some? {
      PassingIsEmptyIff(Asked(t, i.people.value), t.candidates);
    }
    assert Wanted(t, i) == Some(Match(i.id, f.triageOrg, Triage));
    var plans := Plans(t, f.interests);
    PlansAreSensible(t, f.interests);
    assert plans[k].wanted == Wanted(t, i) && plans[k].interest == i.id;
    PlacedAtItsTurn(State(matches, {}, [], []), plans, ev.envs, |plans|, k);
  }

  // ---------------------------------------------------------------- where the law stops

  lemma {:induction false} SoleCandidateWins(t: Setting, i: Interest, c: Candidate)
    requires t.candidates == [c] && i.people.Some? && HardFilter(c, i.people.value, t.excluded).Passed?
    requires Checked(c.org) && Proper(t.weights)
    ensures Wanted(t, i) == Some(Match(i.id, c.org.id, Recommended))
  {
    TriageIffNobodyPasses(t, i);
    RecommendedPassesTheFilter(t, i);
  }

  /** The organisation of row id can be put forward again: its interest names a people group and has no
      open match, and nothing put the organisation on the list. */
  predicate CanReturn(f: Frame, matches: Matches, id: MatchId, k: nat) {
    && id in matches && k < |f.interests| && matches[id].interest == f.interests[k].id
    && f.interests[k].people.Some? && !HasOpen(matches, f.interests[k].id)
    && matches[id].org != f.triageOrg && matches[id].org !in Derived(matches, f.interests)
  }

  /** A run put the organisation of the old row id forward again, for the same interest. */
  predicate Returned(f: Frame, matches: Matches, after: Matches, id: MatchId, k: nat) {
    && id in matches && k < |f.interests| && matches[id].interest == f.interests[k].id && matches[id].org != f.triageOrg
    && exists new' :: new' in after && new' !in matches && SamePair(after[new'], matches[id])
  }

  function SoleOffer(org: OrgId, people: PeopleGroup, run: RunId, envs: seq<Surroundings>): Event {
    RunMatcher(Adopter(None, None), [Candidate(Org(org, true, 1, 0, None, None, None), {people})], DEFAULT_WEIGHTS, run, envs)
  }

  /** Exactly then: when it can return, a run in which it alone is on offer brings it back. This is what a
      match closed as withdrawn or completed leads to. */
  lemma {:induction false} ReturnsWhenAlone(f: Frame, matches: Matches, id: MatchId, k: nat, run: RunId, envs: seq<Surroundings>)
    requires CanReturn(f, matches, id, k) && |envs| == |f.interests| && QuietRun(matches, envs) && DistinctIds(f)
    ensures var ev := SoleOffer(matches[id].org, f.interests[k].people.value, run, envs);
            Allowed(f, matches, ev) && Returned(f, matches, Step(f, matches, ev), id, k)
  {
    var i := f.interests[k];
    var ev := SoleOffer(matches[id].org, i.people.value, run, envs);
    var t := DefaultSetting(f, matches, ev);
    SoleCandidateWins(t, i, ev.candidates[0]);
    var plans := Plans(t, f.interests);
    PlansAreSensible(t, f.interests);
    QuietIsAllowed(f, matches, ev);
    assert plans[k].wanted == Wanted(t, i) && plans[k].interest == i.id;
    PlacedAtItsTurn(State(matches, {}, [], []), plans, envs, |plans|, k);
    assert SamePair(Step(f, matches, ev)[envs[k].id], matches[id]);
  }

  /** And only then. */
  lemma {:induction false} ReturnsOnlyIfItCan(f: Frame, matches: Matches, ev: Event, id: MatchId, k: nat)
    requires OneOpen(matches) && DistinctIds(f) && ev.RunMatcher? && Allowed(f, matches, ev) && QuietRun(matches, ev.envs)
    requires Returned(f, matches, Step(f, matches, ev), id, k)
    ensures CanReturn(f, matches, id, k)
  {
    var t := DefaultSetting(f, matches, ev);
    var plans := Plans(t, f.interests);
    PlansAreSensible(t, f.interests);
    assert forall j :: 0 <= j < |plans| ==> plans[j].interest == f.interests[j].id && plans[j].wanted == Wanted(t, f.interests[j]);
    var after := Step(f, matches, ev);
    var new' :| new' in after && new' !in matches && SamePair(after[new'], matches[id]);
    var j := NewRowIsAPlan(State(matches, {}, [], []), plans, ev.envs, |plans|, new');
    assert j == k;
    if Wanted(t, f.interests[k]).value.status.Recommended? {
      RecommendedPassesTheFilter(t, f.interests[k]);
    }
  }

  lemma {:induction false} NewRowIsAPlan(s: State, plans: seq<Plan>, envs: seq<Surroundings>, n: nat, id: MatchId) returns (k: nat)
    requires n <= |plans| == |envs| && QuietRun(s.matches, envs) && AllSensible(plans)
    requires id in ProcessedUpTo(s, plans, envs, n).matches && id !in s.matches
    ensures k < n && plans[k].wanted == Some(ProcessedUpTo(s, plans, envs, n).matches[id])
    ensures !HasOpen(s.matches, plans[k].interest)
  {
    var before := ProcessedUpTo(s, plans, envs, n - 1);
    QuietUpTo(s, plans, envs, n - 1);
    QuietStep(before, plans[n - 1], envs[n - 1]);
    if id in before.matches {
      k := NewRowIsAPlan(s, plans, envs, n - 1, id);
    } else {
      k := n - 1;
      if HasOpen(s.matches, plans[k].interest) {
        ExtendsKeepsOpen(s.matches, before.matches, plans[k].interest);
      }
    }
  }

  lemma {:induction false} SentBackThenInserted(s: State, p: Plan, env: Surroundings, interest: InterestId, org: OrgId)
    requires s.own == {} && p.wanted == Some(Match(interest, org, Recommended))
    requires env.before == Some(map[0 := Match(interest, org, SentBack)]) && env.id == 1
    ensures Processed(s, p, env).matches == map[0 := Match(interest, org, SentBack), 1 := Match(interest, org, Recommended)]
  {
    var s' := Interfered(Audited(s, p), env.before);
    assert s'.matches == map[0 := Match(interest, org, SentBack)];
    assert !HasOpen(s'.matches, interest);
  }

  lemma {:induction false} OneProcessed(s: State, plans: seq<Plan>, envs: seq<Surroundings>)
    requires |plans| == |envs| == 1
    ensures ProcessedAll(s, plans, envs) == Processed(s, plans[0], envs[0])
  {
    assert ProcessedUpTo(s, plans, envs, 0) == s;
    assert ProcessedUpTo(s, plans, envs, 1) == Processed(s, plans[0], envs[0]);
  }

  /** The list is made at the start of a run. A match sent back while the run is under way is not on it,
      so the same organisation is recommended again at once. */
  lemma {:induction false} SentBackMidRunReturns(interest: InterestId, org: OrgId, triageOrg: OrgId, people: PeopleGroup, run: RunId)
    requires org != triageOrg
    ensures var f := Frame([Interest(interest, Some(people))], triageOrg);
            var matches := map[0 := Match(interest, org, Recommended)];
            var sentBack := map[0 := Match(interest, org, SentBack)];
            var ev := SoleOffer(org, people, run, [Surroundings(Some(sentBack), None, 1)]);
            var after := RunResult(matches, Plans(DefaultSetting(f, matches, ev), f.interests), ev.envs);
            after == map[0 := Match(interest, org, SentBack), 1 := Match(interest, org, Recommended)]
  {
    var i := Interest(interest, Some(people));
    var f := Frame([i], triageOrg);
    var matches := map[0 := Match(interest, org, Recommended)];
    var ev := SoleOffer(org, people, run, [Surroundings(Some(map[0 := Match(interest, org, SentBack)]), None, 1)]);
    var t := DefaultSetting(f, matches, ev);
    SoleCandidateWins(t, i, ev.candidates[0]);
    var plans := Plans(t, f.interests);
    assert plans[0].wanted == Wanted(t, i);
    OneProcessed(State(matches, {}, [], []), plans, ev.envs);
    SentBackThenInserted(State(matches, {}, [], []), plans[0], ev.envs[0], interest, org);
  }
}
