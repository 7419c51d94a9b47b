/** What a run tells about each organisation and interest, in terms of the rows it read. */
module MatchOutcome {
  import opened Options
  import opened MatchScoring
  import opened MatchRanking
  import opened MatchTables
  import opened MatchPlans
  import opened MatchLaws

  // ---------------------------------------------------------------- the ranked list

  predicate Passes(q: Question, c: Candidate) {
    && c.org.id !in q.excluded && c.org.active && c.org.capacityCommitted < c.org.capacityTotal
    && q.people in c.covered
  }

  lemma {:induction false} CheckedMember(candidates: seq<Candidate>, c: Candidate)
    requires AllChecked(candidates) && c in candidates
    ensures Checked(c.org)
  {
  }

  /** Every candidate that passes has a place in the list, with the worth it has. */
  lemma {:induction false} PassingIsRanked(q: Question, candidates: seq<Candidate>, c: Candidate) returns (k: nat)
    requires AllChecked(candidates) && c in candidates && Passes(q, c)
    ensures k < |Ranked(Passing(q, candidates))|
    ensures Ranked(Passing(q, candidates))[k].org == c.org
    ensures Ranked(Passing(q, candidates))[k].exact == Worth(q.adopter, c.org, q.weights)
  {
    CheckedMember(candidates, c);
    var x := Evaluate(q, c).value;
    assert Evaluator(q)(c) == Some(x);
    CollectedFrom(Evaluator(q), candidates, x);
    assert x in multiset(Ranked(Passing(q, candidates)));
    k :| 0 <= k < |Ranked(Passing(q, candidates))| && Ranked(Passing(q, candidates))[k] == x;
  }

  /** And nobody else has. */
  lemma {:induction false} RankedPasses(q: Question, candidates: seq<Candidate>, k: nat)
    requires AllChecked(candidates) && k < |Ranked(Passing(q, candidates))|
    ensures var x := Ranked(Passing(q, candidates))[k];
      exists c :: c in candidates && c.org == x.org && Passes(q, c) && x.exact == Worth(q.adopter, c.org, q.weights)
  {
    var x := Ranked(Passing(q, candidates))[k];
    assert x in multiset(Ranked(Passing(q, candidates)));
    CollectedFrom(Evaluator(q), candidates, x);
    var c :| c in candidates && Evaluator(q)(c) == Some(x);
    assert Evaluate(q, c) == Some(x);
    CheckedMember(candidates, c);
  }

  /** Whoever is ahead has the higher rounded score, or the same one and was never assigned or longer ago, or
      the same assignment too and the smaller id. */
  lemma {:induction false} RankedTellsWhy(q: Question, candidates: seq<Candidate>, i: nat, j: nat)
    requires DistinctOrgs(candidates) && i < j < |Ranked(Passing(q, candidates))|
    ensures var x, y := Ranked(Passing(q, candidates))[i], Ranked(Passing(q, candidates))[j];
      && x.total >= y.total
      && (x.total == y.total ==>
            var first, second := x.org.lastAssignedAt, y.org.lastAssignedAt;
            if first == second then x.org.id < y.org.id
            else first.None? || (second.Some? && first.value < second.value))
  {
    PassingKeepsIdsDistinct(q, candidates);
    RankedIsSorted(Passing(q, candidates));
    assert Before(Ranked(Passing(q, candidates))[i], Ranked(Passing(q, candidates))[j]);
  }

  lemma {:induction false} WorthByCountry(a: Adopter, c: Org, d: Org, w: Weights)
    requires c.capacityTotal > 0 && d == c.(id := d.id, country := d.country)
    requires SameCountry(a, c) && !SameCountry(a, d)
    ensures Worth(a, c, w) == Worth(a, d, w) + w.geography
  {
    WeighedByCountry(FreeShare(c), Shared(Codes(a.languages), Codes(c.languages)), w);
  }

  lemma {:induction false} WeighedByCountry(free: real, shared: real, w: Weights)
    ensures Weighed(free, true, shared, w) == Weighed(free, false, shared, w) + w.geography
  {
  }

  /** Who is ahead of whom when one is worth more. */
  lemma {:induction false} WorthMoreGoesFirst(q: Question, candidates: seq<Candidate>, k: nat, l: nat)
    requires DistinctOrgs(candidates)
    requires k < |Ranked(Passing(q, candidates))| && l < |Ranked(Passing(q, candidates))|
    requires Ranked(Passing(q, candidates))[k].exact >= Ranked(Passing(q, candidates))[l].exact
    ensures var x, y := Ranked(Passing(q, candidates))[k], Ranked(Passing(q, candidates))[l];
      k <= l || (x.exact <= y.exact + 0.001 && x.total == y.total)
  {
    if l < k {
      RankFollowsScoreWithinAThousandth(q, candidates, l, k);
      RankedTellsWhy(q, candidates, l, k);
      RankedInRange(q, candidates, k);
      RankedInRange(q, candidates, l);
      RoundingMeaning(Ranked(Passing(q, candidates))[l].exact, Ranked(Passing(q, candidates))[k].exact);
    }
  }

  /** Of two candidates that differ only in country, the one in the adopter's country is worth more by exactly
      the weight of the geography. It is ranked ahead, unless that weight is so small that rounding may hide
      it, both round to the same score and the other has the smaller id. */
  lemma {:induction false} SameCountryGoesFirst(q: Question, candidates: seq<Candidate>, c: Candidate, d: Candidate)
    returns (k: nat, l: nat)
    requires Proper(q.weights) && DistinctOrgs(candidates) && AllChecked(candidates)
    requires c in candidates && d in candidates && Passes(q, c) && Passes(q, d)
    requires d.org == c.org.(id := d.org.id, country := d.org.country)
    requires SameCountry(q.adopter, c.org) && !SameCountry(q.adopter, d.org)
    ensures k < |Ranked(Passing(q, candidates))| && l < |Ranked(Passing(q, candidates))|
    ensures var x, y := Ranked(Passing(q, candidates))[k], Ranked(Passing(q, candidates))[l];
      && x.org == c.org && y.org == d.org
      && x.exact == y.exact + q.weights.geography
      && (k < l || (q.weights.geography <= 0.001 && x.total == y.total && d.org.id < c.org.id))
  {
    CheckedMember(candidates, c);
    k := PassingIsRanked(q, candidates, c);
    l := PassingIsRanked(q, candidates, d);
    WorthByCountry(q.adopter, c.org, d.org, q.weights);
    WorthMoreGoesFirst(q, candidates, k, l);
    assert c.org.country != d.org.country;
    if l < k {
      RankedTellsWhy(q, candidates, l, k);
    }
  }

  // ---------------------------------------------------------------- the audit row of a pair

  /** The reason of an audit row is the first condition that fails. */
  predicate ReasonFits(r: FilterReason, c: Candidate, people: PeopleGroup, excluded: set<OrgId>) {
    match r
    case Excluded => c.org.id in excluded
    case Inactive => c.org.id !in excluded && !c.org.active
    case NoCapacity => c.org.id !in excluded && c.org.active && c.org.capacityCommitted >= c.org.capacityTotal
    case NoCoverage => c.org.id !in excluded && c.org.active && c.org.capacityCommitted < c.org.capacityTotal && people !in c.covered
    case Passed => Passes(Question(Adopter(None, None), people, excluded, DEFAULT_WEIGHTS), c)
  }

  /** An audit row says of which interest, run and organisation it is, why the organisation was turned away or
      that it passed, and then its rounded score, and its rank if it is among the first three of the list. */
  lemma {:induction false} AuditRowTells(t: Setting, i: Interest, n: nat)
    requires Proper(t.weights) && AllChecked(t.candidates) && DistinctOrgs(t.candidates)
    requires i.people.Some? && n < |t.candidates|
    ensures |Audit(t, i)| == |t.candidates|
    ensures var row, c := Audit(t, i)[n], t.candidates[n];
      && row.interest == i.id && row.run == t.run && row.org == c.org.id
      && ReasonFits(row.reason, c, i.people.value, t.excluded)
      && (row.score.Some? <==> row.reason.Passed?)
      && (row.score.Some? ==> row.score.value == Thousandths(Worth(t.adopter, c.org, t.weights)))
    ensures var ranked := Ranked(Passing(Question(t.adopter, i.people.value, t.excluded, t.weights), t.candidates));
      forall k: nat :: Audit(t, i)[n].rank == Some(k) <==> 1 <= k <= 3 && k <= |ranked| && ranked[k - 1].org.id == t.candidates[n].org.id
  {
    var q, c := Question(t.adopter, i.people.value, t.excluded, t.weights), t.candidates[n];
    CheckedMember(t.candidates, c);
    forall k: nat {
      RanksAreOneToThree(q, t.candidates, c.org.id, k);
    }
  }

  // ---------------------------------------------------------------- the match rows

  /** An open match of an interest. */
  predicate IsOpenMatch(m: Match, interest: InterestId) {
    m.interest == interest && (m.status == Recommended || m.status == Accepted || m.status == Active || m.status == Triage)
  }

  /** At no point of a run are two open matches of one interest on record. */
  lemma {:induction false} NeverTwoOpen(s: State, plans: seq<Plan>, envs: seq<Surroundings>, n: nat,
                                       interest: InterestId, a: MatchId, b: MatchId)
    requires n <= |plans| == |envs| && OneOpen(s.matches)
    requires var m := ProcessedUpTo(s, plans, envs, n).matches;
      a in m && b in m && IsOpenMatch(m[a], interest) && IsOpenMatch(m[b], interest)
    ensures a == b
  {
    RunKeepsOneOpen(s, plans, envs, n);
  }

  /** A guarded insert goes in exactly when its id is new and it is not a second open match of its interest. Then
      it and everything pending is stored; else nothing is, and the open match of the interest is named. */
  lemma {:induction false} InsertTells(s: State, id: MatchId, m: Match, between: Option<Matches>)
    requires OneOpen(s.matches)
    ensures Inserted(s, id, m, between).created <==>
      id !in s.matches && !(IsOpenMatch(m, m.interest) && exists j :: j in s.matches && IsOpenMatch(s.matches[j], m.interest))
    ensures var i := Inserted(s, id, m, between);
      if i.created then
        && i.found == Some(id) && i.state.matches == s.matches[id := m] && i.state.own == s.own + {id}
        && i.state.stored == s.stored + s.pending && i.state.pending == []
      else
        && i.state.stored == s.stored && i.state.pending == [] && i.state.own == s.own
        && (between.None? ==> i.state.matches == s.matches)
        && (i.found.Some? ==> i.found.value in i.state.matches && IsOpenMatch(i.state.matches[i.found.value], m.interest))
        && (i.found.None? ==> forall j :: j in i.state.matches ==> !IsOpenMatch(i.state.matches[j], m.interest))
  {
    assert forall j :: j in s.matches ==> IsOpenMatch(s.matches[j], m.interest) == OpenFor(s.matches[j], m.interest);
  }

  /** Without an exclusion list of the caller's, the organisations left out are those that sent the contact back
      or declined them for one of the interests. */
  lemma {:induction false} DerivedTells(matches: Matches, interests: seq<Interest>, org: OrgId)
    ensures org in Derived(matches, interests) <==>
      exists id, k :: id in matches && 0 <= k < |interests| && matches[id].org == org
                      && matches[id].interest == interests[k].id && (matches[id].status == SentBack || matches[id].status == Declined)
  {
  }
}
