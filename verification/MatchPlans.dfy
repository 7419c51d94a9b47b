/** From the loaded organisations to what each interest should get. */
module MatchPlans {
  import opened Options
  import opened MatchScoring
  import opened MatchRanking
  import opened MatchTables

  datatype Interest = Interest(id: InterestId, people: Option<PeopleGroup>)

  /** What stays fixed for a run. */
  datatype Setting = Setting(
    adopter: Adopter, candidates: seq<Candidate>, triageOrg: OrgId, excluded: set<OrgId>, weights: Weights, run: RunId)

  function Asked(t: Setting, people: PeopleGroup): Question {
    Question(t.adopter, people, t.excluded, t.weights)
  }

  function PromotedFor(t: Setting, people: PeopleGroup): seq<Scored> {
    Promoted(Ranked(Passing(Asked(t, people), t.candidates)))
  }

  function RowOf(t: Setting, interest: InterestId, people: PeopleGroup, c: Candidate, promoted: seq<Scored>): Attempt {
    var scored := Evaluate(Asked(t, people), c);
    Attempt(interest, t.run, c.org.id, HardFilter(c, people, t.excluded),
            if scored.Some? then Some(scored.value.total) else None, RankOf(promoted, c.org.id))
  }

  function Rows(t: Setting, interest: InterestId, people: PeopleGroup, promoted: seq<Scored>, n: nat): (rows: seq<Attempt>)
    requires n <= |t.candidates|
    ensures |rows| == n
    ensures forall k :: 0 <= k < n ==> rows[k] == RowOf(t, interest, people, t.candidates[k], promoted)
  {
    if n == 0 then []
    else Rows(t, interest, people, promoted, n - 1) + [RowOf(t, interest, people, t.candidates[n - 1], promoted)]
  }

  /** One audit row per candidate, in the order the candidates were loaded. */
  function Audit(t: Setting, i: Interest): seq<Attempt> {
    if i.people.None? then [] else Rows(t, i.id, i.people.value, PromotedFor(t, i.people.value), |t.candidates|)
  }

  predicate NobodyPasses(t: Setting, i: Interest) {
    i.people.None? || Passing(Asked(t, i.people.value), t.candidates) == []
  }

  /** The match row the interest should get, if any. */
  function Wanted(t: Setting, i: Interest): (m: Option<Match>)
    ensures m.Some? ==> OpenFor(m.value, i.id)
    ensures m.Some? ==> m.value.status.Recommended? || m.value == Match(i.id, t.triageOrg, Triage)
  {
    if NobodyPasses(t, i) then Some(Match(i.id, t.triageOrg, Triage))
    else
      var promoted := PromotedFor(t, i.people.value);
      if promoted == [] then None else Some(Match(i.id, promoted[0].org.id, Recommended))
  }

  function PlanOf(t: Setting, i: Interest): (p: Plan)
    ensures p.interest == i.id && p.wanted == Wanted(t, i) && p.audit == Audit(t, i)
  {
    Plan(i.id, Audit(t, i), Wanted(t, i), if i.people.None? then NoFpg else if NobodyPasses(t, i) then NoCoverageFound else ScoredAll)
  }

  function Plans(t: Setting, interests: seq<Interest>): (plans: seq<Plan>)
    ensures |plans| == |interests| && forall k :: 0 <= k < |interests| ==> plans[k] == PlanOf(t, interests[k])
  {
    seq(|interests|, k requires 0 <= k < |interests| => PlanOf(t, interests[k]))
  }

  predicate SendsAway(s: Status) {
    s.SentBack? || s.Declined?
  }

  /** Organisations that sent the contact back or declined them, for any of the interests. */
  function Derived(matches: Matches, interests: seq<Interest>): set<OrgId> {
    set id, k | id in matches && 0 <= k < |interests| && interests[k].id == matches[id].interest && SendsAway(matches[id].status)
      :: matches[id].org
  }

  // ---------------------------------------------------------------- who is put forward

  lemma {:induction false} AtFloorIsPart(ranked: seq<Scored>, x: Scored)
    requires x in AtFloor(ranked)
    ensures x in ranked
  {
    if ranked != [] && x in AtFloor(ranked[1..]) {
      AtFloorIsPart(ranked[1..], x);
    }
  }

  lemma {:induction false} PromotedPasses(q: Question, candidates: seq<Candidate>, x: Scored)
    requires x in Promoted(Ranked(Passing(q, candidates)))
    ensures exists c :: c in candidates && c.org == x.org && HardFilter(c, q.people, q.excluded).Passed?
  {
    AtFloorIsPart(Ranked(Passing(q, candidates)), x);
    assert x in multiset(Ranked(Passing(q, candidates)));
    CollectedFrom(Evaluator(q), candidates, x);
    var c :| c in candidates && Evaluator(q)(c) == Some(x);
    assert Evaluate(q, c) == Some(x);
  }

  /** Only a loaded organisation that passes the filter is ever recommended. */
  lemma {:induction false} RecommendedPassesTheFilter(t: Setting, i: Interest)
    requires Wanted(t, i).Some? && Wanted(t, i).value.status.Recommended?
    ensures i.people.Some?
    ensures exists c :: c in t.candidates && c.org.id == Wanted(t, i).value.org && HardFilter(c, i.people.value, t.excluded).Passed?
  {
    PromotedPasses(Asked(t, i.people.value), t.candidates, PromotedFor(t, i.people.value)[0]);
  }

  lemma {:induction false} PassingIsEmptyIff(q: Question, candidates: seq<Candidate>)
    ensures Passing(q, candidates) == [] <==> forall c :: c in candidates ==> !HardFilter(c, q.people, q.excluded).Passed?
  {
    var passing := Passing(q, candidates);
    if passing != [] {
      CollectedFrom(Evaluator(q), candidates, passing[0]);
      var c :| c in candidates && Evaluator(q)(c) == Some(passing[0]);
      assert Evaluate(q, c).Some?;
    } else {
      forall c | c in candidates ensures Evaluate(q, c).None? {
        NothingCollected(q, candidates, c);
      }
    }
  }

  lemma {:induction false} NothingCollected(q: Question, candidates: seq<Candidate>, c: Candidate)
    requires c in candidates && Passing(q, candidates) == []
    ensures Evaluate(q, c).None?
  {
    match Evaluator(q)(c)
    case None =>
    case Some(x) => CollectedFrom(Evaluator(q), candidates, x);
  }

  /** Triage is where an interest goes exactly when it names no people group or nobody passes. */
  lemma {:induction false} TriageIffNobodyPasses(t: Setting, i: Interest)
    requires Proper(t.weights) && AllChecked(t.candidates)
    ensures Wanted(t, i).Some?
    ensures Wanted(t, i).value.status.Triage?
      <==> i.people.None? || forall c :: c in t.candidates ==> !HardFilter(c, i.people.value, t.excluded).Passed?
  {
    if i.people.Some? {
      FloorIsNeverFelt(Asked(t, i.people.value), t.candidates);
      PassingIsEmptyIff(Asked(t, i.people.value), t.candidates);
    }
  }

  /** The recommended organisation is the one whose audit row has rank one. */
  lemma {:induction false} RankOneIsPutForward(t: Setting, i: Interest, c: nat)
    requires Proper(t.weights) && AllChecked(t.candidates) && DistinctOrgs(t.candidates) && i.people.Some? && c < |t.candidates|
    ensures Audit(t, i)[c].rank == Some(1) <==> Wanted(t, i) == Some(Match(i.id, t.candidates[c].org.id, Recommended))
  {
    var q := Asked(t, i.people.value);
    RanksAreOneToThree(q, t.candidates, t.candidates[c].org.id, 1);
    FloorIsNeverFelt(q, t.candidates);
  }

  // ---------------------------------------------------------------- the audit rows of a plan

  predicate IsFor(a: Attempt, interest: InterestId, org: OrgId) {
    a.interest == interest && a.org == org
  }

  predicate AuditsEach(p: Plan, orgs: seq<OrgId>) {
    |p.audit| == |orgs| && forall k :: 0 <= k < |orgs| ==> IsFor(p.audit[k], p.interest, orgs[k])
  }

  function OrgIds(candidates: seq<Candidate>): (ids: seq<OrgId>)
    ensures |ids| == |candidates| && forall k :: 0 <= k < |ids| ==> ids[k] == candidates[k].org.id
  {
    seq(|candidates|, k requires 0 <= k < |candidates| => candidates[k].org.id)
  }

  lemma {:induction false} PlanAuditsEachCandidate(t: Setting, i: Interest)
    ensures AuditsEach(PlanOf(t, i), if i.people.None? then [] else OrgIds(t.candidates))
  {
  }
}
