/** The matcher's run over a session object, proved against the functions of MatchTables. */
module MatchSession {
  import opened Options
  import opened MatchScoring
  import opened MatchRanking
  import opened MatchTables
  import opened MatchPlans

  datatype RunResult = Finished(outcomes: seq<Outcome>) | TriageOrgMissing

  /** Adding and flushing the audit rows first, and then inserting, is the whole of it. */
  lemma {:induction false} ProcessedAfterAudit(s: State, p: Plan, env: Surroundings)
    ensures Processed(Audited(s, p), p.(audit := []), env) == Processed(s, p, env)
    ensures OutcomeOf(Audited(s, p), p.(audit := []), env) == OutcomeOf(s, p, env)
    ensures p.audit == [] ==> Audited(s, p) == Flushed(s)
  {
    var done := Audited(s, p);
    assert done.stored + [] == done.stored;
    assert Audited(done, p.(audit := [])) == done;
    assert s.pending + [] == s.pending;
  }

  /** What is wanted for an interest with a people group, by who passed and who was promoted. */
  lemma {:induction false} WantedAfterScoring(t: Setting, i: Interest)
    requires i.people.Some?
    ensures var scored := Passing(Asked(t, i.people.value), t.candidates);
      var promoted := Promoted(Ranked(scored));
      PlanOf(t, i).(audit := []) ==
        if scored == [] then Plan(i.id, [], Some(Match(i.id, t.triageOrg, Triage)), NoCoverageFound)
        else if promoted == [] then Plan(i.id, [], None, ScoredAll)
        else Plan(i.id, [], Some(Match(i.id, promoted[0].org.id, Recommended)), ScoredAll)
  {
  }

  lemma {:induction false} NothingWanted(s: State, p: Plan, env: Surroundings)
    requires s.pending == [] && p.audit == [] && p.wanted.None?
    ensures Processed(s, p, env) == s
  {
    assert s.stored + [] == s.stored;
  }

  /** The trigger keeps the plans from being worked out where only their fold matters. */
  ghost predicate PlansFit(plans: seq<Plan>, t: Setting, interests: seq<Interest>) {
    |plans| == |interests| && forall k {:trigger PlanOf(t, interests[k])} :: 0 <= k < |interests| ==> plans[k] == PlanOf(t, interests[k])
  }

  /** The match was sent back or declined by this organisation, for one of these interests. */
  predicate RulesOut(m: Match, interests: seq<Interest>, org: OrgId) {
    m.org == org && (m.status == SentBack || m.status == Declined) && exists k :: 0 <= k < |interests| && interests[k].id == m.interest
  }

  lemma {:induction false} DerivedIs(matches: Matches, interests: seq<Interest>, excluded: set<OrgId>)
    requires forall org :: org in excluded <==> exists id :: id in matches && RulesOut(matches[id], interests, org)
    ensures excluded == Derived(matches, interests)
  {
    forall org ensures org in excluded <==> org in Derived(matches, interests) {
      if org in excluded {
        var id :| id in matches && RulesOut(matches[id], interests, org);
      }
      if org in Derived(matches, interests) {
        var id, k :| id in matches && 0 <= k < |interests| && interests[k].id == matches[id].interest
          && SendsAway(matches[id].status) && matches[id].org == org;
        assert RulesOut(matches[id], interests, org);
      }
    }
  }

  class Session {
    var matches: Matches
    var own: set<MatchId>
    var pending: seq<Attempt>
    var stored: seq<Attempt>

    ghost function Now(): State
      reads this
    {
      State(matches, own, pending, stored)
    }

    constructor (matches: Matches)
      ensures Now() == State(matches, {}, [], [])
    {
      this.matches, own, pending, stored := matches, {}, [], [];
    }

    /** Other sessions commit. */
    method Interfere(proposed: Option<Matches>)
      modifies this`matches
      ensures Now() == Interfered(old(Now()), proposed)
    {
      if proposed.Some? && Legal(State(matches, own, pending, stored), proposed.value) {
        matches := proposed.value;
      }
    }

    method Flush()
      modifies this`pending, this`stored
      ensures Now() == Flushed(old(Now()))
    {
      stored := stored + pending;
      pending := [];
    }

    method InsertMatchWithConflictGuard(id: MatchId, m: Match, between: Option<Matches>) returns (found: Option<MatchId>, created: bool)
      requires OneOpen(matches)
      modifies this
      ensures Inserted(old(Now()), id, m, between) == Insertion(Now(), found, created)
    {
      var savepoint := State(matches, own, pending, stored);
      Flush();
      if !(id in matches || (OpenStatus(m.status) && HasOpen(matches, m.interest))) {
        matches := matches[id := m];
        own := own + {id};
        return Some(id), true;
      }
      matches, own, pending, stored := savepoint.matches, savepoint.own, [], savepoint.stored;
      Interfere(between);
      if HasOpen(matches, m.interest) {
        var winner :| winner in matches && OpenFor(matches[winner], m.interest);
        OpenMatchIsUnique(matches, m.interest, winner);
        return Some(winner), false;
      }
      return None, false;
    }

    /** Add an audit row for every candidate, without ranks, and collect the ones that pass. */
    method ScoreCandidates(t: Setting, interest: InterestId, people: PeopleGroup) returns (scored: seq<Scored>)
      modifies this`pending
      ensures scored == Passing(Asked(t, people), t.candidates)
      ensures pending == old(pending) + Rows(t, interest, people, [], |t.candidates|)
    {
      scored := [];
      for k := 0 to |t.candidates|
        invariant scored == Passing(Asked(t, people), t.candidates[..k])
        invariant pending == old(pending) + Rows(t, interest, people, [], k)
      {
        var c := t.candidates[k];
        var evaluated := Evaluate(Asked(t, people), c);
        PassingOneMore(Asked(t, people), t.candidates, k);
        var score := None;
        if evaluated.Some? {
          scored := scored + [evaluated.value];
          score := Some(evaluated.value.total);
        }
        pending := pending + [Attempt(interest, t.run, c.org.id, HardFilter(c, people, t.excluded), score, None)];
      }
      assert t.candidates[..|t.candidates|] == t.candidates;
    }

    /** Write the ranks back onto the rows just added. */
    method BackfillRanks(promoted: seq<Scored>, from: nat, ghost t: Setting, ghost interest: InterestId, ghost people: PeopleGroup)
      requires |pending| == from + |t.candidates| && pending[from..] == Rows(t, interest, people, [], |t.candidates|)
      modifies this`pending
      ensures pending == old(pending)[..from] + Rows(t, interest, people, promoted, |t.candidates|)
    {
      for k := from to |pending|
        invariant |pending| == |old(pending)| && pending[..from] == old(pending)[..from]
        invariant forall j :: k <= j < |pending| ==> pending[j] == old(pending)[j]
        invariant forall j :: from <= j < k ==> pending[j] == RowOf(t, interest, people, t.candidates[j - from], promoted)
      {
        var rank := RankOf(promoted, pending[k].org);
        assert old(pending)[k] == old(pending)[from..][k - from];
        if rank.Some? {
          pending := pending[k := pending[k].(rank := rank)];
        }
      }
    }

    method Route(p: Plan, env: Surroundings) returns (outcome: Outcome)
      requires OneOpen(matches) && p.wanted.Some? && pending == []
      modifies this
      ensures Now() == Processed(old(Now()), p.(audit := []), env)
      ensures outcome == OutcomeOf(old(Now()), p.(audit := []), env)
    {
      assert stored + [] == stored;
      Interfere(env.before);
      var found, created := InsertMatchWithConflictGuard(env.id, p.wanted.value, env.between);
      if found.None? {
        return Outcome(p.interest, None, [], Unrecoverable);
      }
      if p.wanted.value.status.Triage? {
        return Outcome(p.interest, found, [], p.reason);
      }
      return Outcome(p.interest, None, [found.value], p.reason);
    }

    /** Audit rows with their ranks, added and flushed. */
    method ScoreAndRank(t: Setting, i: Interest) returns (scored: seq<Scored>, promoted: seq<Scored>)
      requires i.people.Some?
      modifies this`pending, this`stored
      ensures Now() == Audited(old(Now()), PlanOf(t, i))
      ensures scored == Passing(Asked(t, i.people.value), t.candidates) && promoted == Promoted(Ranked(scored))
    {
      var first := |pending|;
      scored := ScoreCandidates(t, i.id, i.people.value);
      promoted := Promoted(Ranked(scored));
      BackfillRanks(promoted, first, t, i.id, i.people.value);
      Flush();
    }

    /** Once the ranks are flushed: to triage, to the first of those promoted, or nowhere. */
    method RouteScored(t: Setting, i: Interest, scored: seq<Scored>, promoted: seq<Scored>, env: Surroundings) returns (outcome: Outcome)
      requires OneOpen(matches) && pending == [] && i.people.Some?
      requires scored == Passing(Asked(t, i.people.value), t.candidates) && promoted == Promoted(Ranked(scored))
      modifies this
      ensures Now() == Processed(old(Now()), PlanOf(t, i).(audit := []), env)
      ensures outcome == OutcomeOf(old(Now()), PlanOf(t, i).(audit := []), env)
    {
      WantedAfterScoring(t, i);
      if scored == [] {
        outcome := Route(Plan(i.id, [], Some(Match(i.id, t.triageOrg, Triage)), NoCoverageFound), env);
      } else if promoted != [] {
        outcome := Route(Plan(i.id, [], Some(Match(i.id, promoted[0].org.id, Recommended)), ScoredAll), env);
      } else {
        NothingWanted(Now(), PlanOf(t, i).(audit := []), env);
        outcome := Outcome(i.id, None, [], ScoredAll);
      }
    }

    method ProcessInterest(t: Setting, i: Interest, env: Surroundings, ghost p: Plan) returns (outcome: Outcome)
      requires OneOpen(matches) && p == PlanOf(t, i)
      modifies this
      ensures Now() == Processed(old(Now()), p, env) && OneOpen(matches)
      ensures outcome == OutcomeOf(old(Now()), p, env)
    {
      ghost var before := Now();
      ProcessedKeepsOneOpen(before, p, env);
      ProcessedAfterAudit(before, p, env);
      if i.people.None? {
        Flush();
        outcome := Route(Plan(i.id, [], Some(Match(i.id, t.triageOrg, Triage)), NoFpg), env);
        return;
      }
      var scored, promoted := ScoreAndRank(t, i);
      outcome := RouteScored(t, i, scored, promoted, env);
    }

    /** SELECT DISTINCT organisation over the matches of these interests, as a scan. */
    method DeriveExclusionList(interests: seq<Interest>) returns (excluded: set<OrgId>)
      ensures forall org :: org in excluded <==> exists id :: id in matches && RulesOut(matches[id], interests, org)
    {
      excluded := {};
      var unseen := matches.Keys;
      while unseen != {}
        invariant unseen <= matches.Keys
        invariant forall org :: org in excluded <==>
          exists id :: id in matches && id !in unseen && RulesOut(matches[id], interests, org)
      {
        var id :| id in unseen;
        unseen := unseen - {id};
        ghost var before := excluded;
        if SendsAway(matches[id].status) && exists k :: 0 <= k < |interests| && interests[k].id == matches[id].interest {
          excluded := excluded + {matches[id].org};
          assert RulesOut(matches[id], interests, matches[id].org);
        }
        forall org ensures org in excluded <==> org in before || RulesOut(matches[id], interests, org) {
        }
      }
    }

    method ProcessNext(t: Setting, interests: seq<Interest>, k: nat, env: Surroundings, ghost plans: seq<Plan>) returns (outcome: Outcome)
      requires OneOpen(matches) && k < |interests| && PlansFit(plans, t, interests)
      modifies this
      ensures Now() == Processed(old(Now()), plans[k], env) && OneOpen(matches)
      ensures outcome == OutcomeOf(old(Now()), plans[k], env)
    {
      assert plans[k] == PlanOf(t, interests[k]);
      outcome := ProcessInterest(t, interests[k], env, plans[k]);
    }

    method ProcessInterests(t: Setting, interests: seq<Interest>, envs: seq<Surroundings>, ghost plans: seq<Plan>)
      returns (outcomes: seq<Outcome>)
      requires OneOpen(matches) && |envs| == |interests| && PlansFit(plans, t, interests)
      modifies this
      ensures Now() == ProcessedAll(old(Now()), plans, envs)
      ensures outcomes == Outcomes(old(Now()), plans, envs, |interests|)
    {
      outcomes := [];
      ghost var start := Now();
      for k := 0 to |interests|
        invariant OneOpen(matches)
        invariant Now() == ProcessedUpTo(start, plans, envs, k)
        invariant outcomes == Outcomes(start, plans, envs, k)
      {
        var outcome := ProcessNext(t, interests, k, envs[k], plans);
        outcomes := outcomes + [outcome];
      }
    }

    /** None for the triage organisation stands for none being marked as such. */
    method MatchOrRoute(interests: seq<Interest>, adopter: Adopter, candidates: seq<Candidate>, triageOrg: Option<OrgId>,
                        exclude: Option<set<OrgId>>, weights: Weights, run: RunId, envs: seq<Surroundings>)
      returns (result: RunResult)
      requires OneOpen(matches) && |envs| == |interests|
      modifies this
      ensures result.TriageOrgMissing? <==> interests != [] && triageOrg.None?
      ensures interests == [] ==> result == Finished([])
      ensures interests == [] || triageOrg.None? ==> Now() == old(Now())
      ensures interests != [] && triageOrg.Some? ==>
                var t := Setting(adopter, candidates, triageOrg.value,
                                 if exclude.Some? then exclude.value else Derived(old(matches), interests), weights, run);
                && Now() == ProcessedAll(old(Now()), Plans(t, interests), envs)
                && result == Finished(Outcomes(old(Now()), Plans(t, interests), envs, |interests|))
    {
      if interests == [] {
        return Finished([]);
      }
      if triageOrg.None? {
        return TriageOrgMissing;
      }
      var excluded;
      if exclude.Some? {
        excluded := exclude.value;
      } else {
        excluded := DeriveExclusionList(interests);
        DerivedIs(matches, interests, excluded);
      }
      var t := Setting(adopter, candidates, triageOrg.value, excluded, weights, run);
      var outcomes := ProcessInterests(t, interests, envs, Plans(t, interests));
      return Finished(outcomes);
    }
  }
}
