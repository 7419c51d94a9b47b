/** What a run keeps whatever others commit meanwhile, and what it achieves when nobody interferes. */
module MatchLaws {
  import opened Options
  import opened MatchScoring
  import opened MatchRanking
  import opened MatchTables
  import opened MatchPlans

  // ---------------------------------------------------------------- whatever others do

  /** What the index means for a run: no interest has two open matches at any point of it. */
  lemma {:induction false} RunKeepsOneOpen(s: State, plans: seq<Plan>, envs: seq<Surroundings>, n: nat)
    requires n <= |plans| == |envs| && OneOpen(s.matches)
    ensures OneOpen(ProcessedUpTo(s, plans, envs, n).matches)
  {
    if n > 0 {
      RunKeepsOneOpen(s, plans, envs, n - 1);
      ProcessedKeepsOneOpen(ProcessedUpTo(s, plans, envs, n - 1), plans[n - 1], envs[n - 1]);
    }
  }

  lemma {:induction false} ProcessedKeepsTheAudit(s: State, p: Plan, env: Surroundings)
    ensures Processed(s, p, env).pending == []
    ensures Processed(s, p, env).stored == s.stored + s.pending + p.audit
  {
  }

  /** On every branch, conflicts included, everything the session held and every audit row of the run
      is stored: the flush before each savepoint leaves the savepoint nothing to take back. */
  lemma {:induction false} AuditSurvives(s: State, plans: seq<Plan>, envs: seq<Surroundings>, n: nat)
    requires n <= |plans| == |envs|
    ensures var s' := ProcessedUpTo(s, plans, envs, n);
            s'.stored + s'.pending == s.stored + s.pending + AuditUpTo(plans, n) && (n > 0 ==> s'.pending == [])
  {
    if n == 0 {
      assert s.stored + s.pending + [] == s.stored + s.pending;
    } else {
      AuditSurvives(s, plans, envs, n - 1);
      ProcessedKeepsTheAudit(ProcessedUpTo(s, plans, envs, n - 1), plans[n - 1], envs[n - 1]);
      var rows := AuditUpTo(plans, n - 1);
      assert s.stored + s.pending + rows + plans[n - 1].audit == s.stored + s.pending + (rows + plans[n - 1].audit);
      var s' := ProcessedUpTo(s, plans, envs, n);
      assert s'.stored + [] == s'.stored;
    }
  }

  predicate DistinctInterests(plans: seq<Plan>) {
    forall j, k :: 0 <= j < k < |plans| ==> plans[j].interest != plans[k].interest
  }

  predicate NoRepeat(orgs: seq<OrgId>) {
    forall j, k :: 0 <= j < k < |orgs| ==> orgs[j] != orgs[k]
  }

  /** Every plan audits the loaded organisations, or none when it names no people group. */
  predicate EachAudits(plans: seq<Plan>, orgs: seq<OrgId>) {
    forall k :: 0 <= k < |plans| ==> AuditsEach(plans[k], orgs) || plans[k].audit == []
  }

  lemma {:induction false} AuditStaysInside(plans: seq<Plan>, orgs: seq<OrgId>, n: nat, x: nat)
    requires n <= |plans| && EachAudits(plans, orgs) && x < |AuditUpTo(plans, n)|
    ensures exists k :: 0 <= k < n && AuditUpTo(plans, n)[x].interest == plans[k].interest
  {
    if x < |AuditUpTo(plans, n - 1)| {
      AuditStaysInside(plans, orgs, n - 1, x);
    } else {
      assert IsFor(AuditUpTo(plans, n)[x], plans[n - 1].interest, orgs[x - |AuditUpTo(plans, n - 1)|]);
    }
  }

  lemma {:induction false} AuditHasEachPair(plans: seq<Plan>, orgs: seq<OrgId>, n: nat, k: nat, c: nat) returns (x: nat)
    requires k < n <= |plans| && AuditsEach(plans[k], orgs) && c < |orgs|
    ensures x < |AuditUpTo(plans, n)| && IsFor(AuditUpTo(plans, n)[x], plans[k].interest, orgs[c])
  {
    if k == n - 1 {
      x := |AuditUpTo(plans, n - 1)| + c;
    } else {
      x := AuditHasEachPair(plans, orgs, n - 1, k, c);
    }
  }

  lemma {:induction false} AuditRepeatsNoPair(plans: seq<Plan>, orgs: seq<OrgId>, n: nat, x: nat, y: nat)
    requires n <= |plans| && DistinctInterests(plans) && NoRepeat(orgs) && EachAudits(plans, orgs)
    requires x < y < |AuditUpTo(plans, n)|
    ensures !IsFor(AuditUpTo(plans, n)[y], AuditUpTo(plans, n)[x].interest, AuditUpTo(plans, n)[x].org)
  {
    var before := |AuditUpTo(plans, n - 1)|;
    if y < before {
      AuditRepeatsNoPair(plans, orgs, n - 1, x, y);
    } else {
      assert IsFor(AuditUpTo(plans, n)[y], plans[n - 1].interest, orgs[y - before]);
      if x < before {
        AuditStaysInside(plans, orgs, n - 1, x);
      } else {
        assert IsFor(AuditUpTo(plans, n)[x], plans[n - 1].interest, orgs[x - before]);
      }
    }
  }

  ghost predicate ExactlyOnce(rows: seq<Attempt>, interest: InterestId, org: OrgId) {
    exists x :: 0 <= x < |rows| && IsFor(rows[x], interest, org)
                && forall y :: 0 <= y < |rows| && IsFor(rows[y], interest, org) ==> y == x
  }

  lemma {:induction false} PairOnce(plans: seq<Plan>, orgs: seq<OrgId>, k: nat, c: nat)
    requires DistinctInterests(plans) && NoRepeat(orgs) && EachAudits(plans, orgs)
    requires k < |plans| && AuditsEach(plans[k], orgs) && c < |orgs|
    ensures ExactlyOnce(AuditUpTo(plans, |plans|), plans[k].interest, orgs[c])
  {
    var rows := AuditUpTo(plans, |plans|);
    var x := AuditHasEachPair(plans, orgs, |plans|, k, c);
    forall y | 0 <= y < |rows| && IsFor(rows[y], plans[k].interest, orgs[c]) ensures y == x {
      if y < x {
        AuditRepeatsNoPair(plans, orgs, |plans|, y, x);
      } else if x < y {
        AuditRepeatsNoPair(plans, orgs, |plans|, x, y);
      }
    }
  }

  /** A run stores exactly one audit row per interest that names a people group and loaded
      organisation, whatever others do around its inserts. */
  lemma {:induction false} EachPairIsAuditedOnce(s: State, t: Setting, interests: seq<Interest>, envs: seq<Surroundings>, k: nat, c: nat)
    requires |interests| == |envs| && s.pending == [] && DistinctOrgs(t.candidates)
    requires forall i, j :: 0 <= i < j < |interests| ==> interests[i].id != interests[j].id
    requires k < |interests| && interests[k].people.Some? && c < |t.candidates|
    ensures s.stored <= ProcessedAll(s, Plans(t, interests), envs).stored
    ensures ExactlyOnce(ProcessedAll(s, Plans(t, interests), envs).stored[|s.stored|..], interests[k].id, t.candidates[c].org.id)
  {
    var plans, orgs := Plans(t, interests), OrgIds(t.candidates);
    forall j | 0 <= j < |plans| ensures AuditsEach(plans[j], orgs) || plans[j].audit == [] {
      PlanAuditsEachCandidate(t, interests[j]);
    }
    PlanAuditsEachCandidate(t, interests[k]);
    PairOnce(plans, orgs, k, c);
    AllStored(s, plans, envs);
  }

  lemma {:induction false} AllStored(s: State, plans: seq<Plan>, envs: seq<Surroundings>)
    requires |plans| == |envs| && s.pending == []
    ensures ProcessedAll(s, plans, envs).stored == s.stored + AuditUpTo(plans, |plans|)
    ensures ProcessedAll(s, plans, envs).stored[|s.stored|..] == AuditUpTo(plans, |plans|)
  {
    AuditSurvives(s, plans, envs, |plans|);
    var s' := ProcessedAll(s, plans, envs);
    assert s'.stored + [] == s'.stored && s.stored + [] == s.stored;
  }

  /** An outcome names an open match of its interest: the row it inserted, or the winner's. */
  lemma {:induction false} OutcomeNamesAnOpenMatch(s: State, p: Plan, env: Surroundings)
    requires p.wanted.Some? ==> OpenFor(p.wanted.value, p.interest)
    ensures var o, after := OutcomeOf(s, p, env), Processed(s, p, env).matches;
            && (o.triage.Some? ==> o.triage.value in after && OpenFor(after[o.triage.value], p.interest))
            && forall id :: id in o.recommended ==> id in after && OpenFor(after[id], p.interest)
  {
  }

  predicate Sensible(p: Plan) {
    p.wanted.Some? ==> OpenFor(p.wanted.value, p.interest)
  }

  lemma {:induction false} ReasonOfPlan(s: State, p: Plan, env: Surroundings)
    requires Sensible(p)
    ensures var o, after := OutcomeOf(s, p, env), Processed(s, p, env).matches;
            || (o == Outcome(p.interest, None, [], Unrecoverable) && !HasOpen(after, p.interest))
            || (o.reason == p.reason && (o.triage.Some? <==> p.wanted.Some? && p.wanted.value.status.Triage?)
                && (o.recommended != [] <==> p.wanted.Some? && !p.wanted.value.status.Triage?))
  {
  }

  /** The reason reported says why the interest went where it went; a run gives an interest up only when
      it has no open match any more. */
  lemma {:induction false} ReasonTellsWhy(s: State, t: Setting, i: Interest, env: Surroundings)
    ensures var o, after := OutcomeOf(s, PlanOf(t, i), env), Processed(s, PlanOf(t, i), env).matches;
            if o.reason.Unrecoverable? then o.triage.None? && o.recommended == [] && !HasOpen(after, i.id)
            else && (o.reason.NoFpg? <==> i.people.None?)
                 && (o.reason.NoCoverageFound? <==> i.people.Some? && NobodyPasses(t, i))
                 && (o.triage.Some? <==> NobodyPasses(t, i)) && (o.recommended != [] ==> !NobodyPasses(t, i))
  {
    ReasonOfPlan(s, PlanOf(t, i), env);
  }

  // ---------------------------------------------------------------- when nobody interferes

  predicate Quiet(env: Surroundings) {
    env.before.None? && env.between.None?
  }

  /** Nobody interferes, and the ids to be drawn are new. */
  predicate QuietRun(matches: Matches, envs: seq<Surroundings>) {
    && (forall k :: 0 <= k < |envs| ==> Quiet(envs[k]) && envs[k].id !in matches)
    && (forall j, k :: 0 <= j < k < |envs| ==> envs[j].id != envs[k].id)
  }

  predicate Extends(m: Matches, m': Matches) {
    forall id :: id in m ==> id in m' && m'[id] == m[id]
  }

  function QuietlyPlaced(matches: Matches, p: Plan, id: MatchId): Matches {
    if p.wanted.None? || HasOpen(matches, p.interest) then matches else matches[id := p.wanted.value]
  }

  lemma {:induction false} QuietStep(s: State, p: Plan, env: Surroundings)
    requires Quiet(env) && env.id !in s.matches && Sensible(p)
    ensures Processed(s, p, env).matches == QuietlyPlaced(s.matches, p, env.id)
    ensures Extends(s.matches, Processed(s, p, env).matches)
    ensures p.wanted.Some? ==> HasOpen(Processed(s, p, env).matches, p.interest)
    ensures OutcomeOf(s, p, env).reason == Unrecoverable ==> p.reason == Unrecoverable
  {
    if p.wanted.Some? && !HasOpen(s.matches, p.interest) {
      assert OpenFor(Processed(s, p, env).matches[env.id], p.interest);
    }
  }

  lemma {:induction false} ExtendsKeepsOpen(m: Matches, m': Matches, interest: InterestId)
    requires Extends(m, m') && HasOpen(m, interest)
    ensures HasOpen(m', interest)
  {
  }

  predicate AllSensible(plans: seq<Plan>) {
    forall k :: 0 <= k < |plans| ==> Sensible(plans[k])
  }

  lemma {:induction false} QuietUpTo(s: State, plans: seq<Plan>, envs: seq<Surroundings>, n: nat)
    requires n <= |plans| == |envs| && QuietRun(s.matches, envs) && AllSensible(plans)
    ensures var m := ProcessedUpTo(s, plans, envs, n).matches;
            && Extends(s.matches, m)
            && (forall k :: n <= k < |envs| ==> envs[k].id !in m)
            && (forall k :: 0 <= k < n && plans[k].wanted.Some? ==> HasOpen(m, plans[k].interest))
  {
    if n > 0 {
      QuietUpTo(s, plans, envs, n - 1);
      var before := ProcessedUpTo(s, plans, envs, n - 1);
      var after := ProcessedUpTo(s, plans, envs, n);
      QuietStep(before, plans[n - 1], envs[n - 1]);
      forall k | 0 <= k < n - 1 && plans[k].wanted.Some? ensures HasOpen(after.matches, plans[k].interest) {
        ExtendsKeepsOpen(before.matches, after.matches, plans[k].interest);
      }
    }
  }

  lemma {:induction false} PlansAreSensible(t: Setting, interests: seq<Interest>)
    ensures AllSensible(Plans(t, interests))
    ensures Proper(t.weights) && AllChecked(t.candidates)
      ==> forall k :: 0 <= k < |interests| ==> Plans(t, interests)[k].wanted.Some?
  {
    if Proper(t.weights) && AllChecked(t.candidates) {
      forall k | 0 <= k < |interests| ensures Wanted(t, interests[k]).Some? {
        TriageIffNobodyPasses(t, interests[k]);
      }
    }
  }

  /** After an undisturbed run every interest of the contact has exactly one open match. */
  lemma {:induction false} EveryInterestIsRouted(s: State, t: Setting, interests: seq<Interest>, envs: seq<Surroundings>)
    requires |interests| == |envs| && OneOpen(s.matches) && QuietRun(s.matches, envs)
    requires Proper(t.weights) && AllChecked(t.candidates)
    ensures var after := ProcessedAll(s, Plans(t, interests), envs).matches;
            OneOpen(after) && forall k :: 0 <= k < |interests| ==> HasOpen(after, interests[k].id)
  {
    var plans := Plans(t, interests);
    RunKeepsOneOpen(s, plans, envs, |plans|);
    PlansAreSensible(t, interests);
    QuietUpTo(s, plans, envs, |plans|);
    assert forall k :: 0 <= k < |interests| ==> plans[k].interest == interests[k].id;
  }

  lemma {:induction false} NothingToDo(s: State, plans: seq<Plan>, envs: seq<Surroundings>, n: nat)
    requires n <= |plans| == |envs| && AllSensible(plans)
    requires forall k :: 0 <= k < |plans| ==> Quiet(envs[k]) && HasOpen(s.matches, plans[k].interest)
    ensures ProcessedUpTo(s, plans, envs, n).matches == s.matches
  {
    if n > 0 {
      NothingToDo(s, plans, envs, n - 1);
    }
  }

  /** Running again, even with other organisations and other weights, leaves every match row as it was
      and only adds the audit rows of the second run. */
  lemma {:induction false} RerunOnlyAudits(s: State, t: Setting, interests: seq<Interest>, envs: seq<Surroundings>, t': Setting, envs': seq<Surroundings>)
    requires |interests| == |envs| == |envs'| && OneOpen(s.matches) && QuietRun(s.matches, envs)
    requires Proper(t.weights) && AllChecked(t.candidates)
    requires forall k :: 0 <= k < |envs'| ==> Quiet(envs'[k])
    ensures var once := ProcessedAll(s, Plans(t, interests), envs);
            var twice := ProcessedAll(once, Plans(t', interests), envs');
            && twice.matches == once.matches
            && twice.stored + twice.pending == once.stored + once.pending + AuditUpTo(Plans(t', interests), |interests|)
  {
    var once := ProcessedAll(s, Plans(t, interests), envs);
    EveryInterestIsRouted(s, t, interests, envs);
    PlansAreSensible(t', interests);
    var plans := Plans(t', interests);
    assert forall k :: 0 <= k < |interests| ==> plans[k].interest == interests[k].id;
    NothingToDo(once, plans, envs', |interests|);
    AuditSurvives(once, plans, envs', |interests|);
  }
}
