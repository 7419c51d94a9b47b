/** Match rows, the unique index over open ones, and one database session of the matcher: rows added
    but not flushed, rows flushed, and what other sessions commit meanwhile. */
module MatchTables {
  import opened Options
  import opened MatchScoring

  type InterestId = nat
  type MatchId = nat
  type RunId = nat

  datatype Status = Recommended | Accepted | SentBack | Declined | Active | Completed | Withdrawn | Triage

  datatype Match = Match(interest: InterestId, org: OrgId, status: Status)

  datatype Attempt = Attempt(interest: InterestId, run: RunId, org: OrgId, reason: FilterReason, score: Option<int>, rank: Option<nat>)

  type Matches = map<MatchId, Match>

  predicate OpenStatus(s: Status) {
    s.Recommended? || s.Accepted? || s.Active? || s.Triage?
  }

  predicate OpenFor(m: Match, interest: InterestId) {
    OpenStatus(m.status) && m.interest == interest
  }

  predicate HasOpen(matches: Matches, interest: InterestId) {
    exists id :: id in matches && OpenFor(matches[id], interest)
  }

  /** uq_match_open_per_interest. */
  predicate OneOpen(matches: Matches) {
    forall i, j :: i in matches && j in matches && i != j && OpenStatus(matches[i].status) ==> !OpenFor(matches[j], matches[i].interest)
  }

  /** The refetch on a conflict. */
  ghost function OpenMatch(matches: Matches, interest: InterestId): (found: Option<MatchId>)
    ensures found.Some? ==> found.value in matches && OpenFor(matches[found.value], interest)
    ensures found.None? <==> !HasOpen(matches, interest)
  {
    if HasOpen(matches, interest) then
      var id :| id in matches && OpenFor(matches[id], interest);
      Some(id)
    else None
  }

  lemma {:induction false} OpenMatchIsUnique(matches: Matches, interest: InterestId, id: MatchId)
    requires OneOpen(matches) && id in matches && OpenFor(matches[id], interest)
    ensures OpenMatch(matches, interest) == Some(id)
  {
  }

  // ---------------------------------------------------------------- the session

  /** matches is what a query of this session sees: its own rows, and what others have committed. */
  datatype State = State(matches: Matches, own: set<MatchId>, pending: seq<Attempt>, stored: seq<Attempt>)

  /** Others may leave any table behind that keeps the index and the rows they cannot see yet. */
  predicate Legal(s: State, proposed: Matches) {
    OneOpen(proposed) && forall id :: id in s.own && id in s.matches ==> id in proposed && proposed[id] == s.matches[id]
  }

  /** None stands for nobody interfering; an illegal proposal is refused. */
  function Interfered(s: State, proposed: Option<Matches>): State {
    if proposed.Some? && Legal(s, proposed.value) then s.(matches := proposed.value) else s
  }

  function Flushed(s: State): State {
    s.(pending := [], stored := s.stored + s.pending)
  }

  predicate Conflicts(s: State, id: MatchId, m: Match) {
    id in s.matches || (OpenStatus(m.status) && HasOpen(s.matches, m.interest))
  }

  datatype Insertion = Insertion(state: State, found: Option<MatchId>, created: bool)

  /** Inside a savepoint everything pending goes out with the new row. When the index refuses the row
      the savepoint takes all of that back, so what was pending is lost. */
  ghost function Inserted(s: State, id: MatchId, m: Match, between: Option<Matches>): Insertion {
    if Conflicts(s, id, m) then
      var undone := Interfered(s.(pending := []), between);
      Insertion(undone, OpenMatch(undone.matches, m.interest), false)
    else
      Insertion(Flushed(s).(matches := s.matches[id := m], own := s.own + {id}), Some(id), true)
  }

  // ---------------------------------------------------------------- one interest

  datatype Reason = NoFpg | NoCoverageFound | ScoredAll | Unrecoverable

  /** What scoring decides about an interest: its audit rows, the match row it should get, if any, and
      what to report when it has one. */
  datatype Plan = Plan(interest: InterestId, audit: seq<Attempt>, wanted: Option<Match>, reason: Reason)

  /** What the rest of the world does around one insert, and the id the row would get. */
  datatype Surroundings = Surroundings(before: Option<Matches>, between: Option<Matches>, id: MatchId)

  datatype Outcome = Outcome(interest: InterestId, triage: Option<MatchId>, recommended: seq<MatchId>, reason: Reason)

  function Audited(s: State, p: Plan): State {
    Flushed(s.(pending := s.pending + p.audit))
  }

  ghost function Processed(s: State, p: Plan, env: Surroundings): State {
    match p.wanted
    case None => Audited(s, p)
    case Some(m) => Inserted(Interfered(Audited(s, p), env.before), env.id, m, env.between).state
  }

  function OutcomeWith(p: Plan, m: Match, found: Option<MatchId>): Outcome {
    if found.None? then Outcome(p.interest, None, [], Unrecoverable)
    else if m.status.Triage? then Outcome(p.interest, found, [], p.reason)
    else Outcome(p.interest, None, [found.value], p.reason)
  }

  ghost function OutcomeOf(s: State, p: Plan, env: Surroundings): Outcome {
    match p.wanted
    case None => Outcome(p.interest, None, [], p.reason)
    case Some(m) => OutcomeWith(p, m, Inserted(Interfered(Audited(s, p), env.before), env.id, m, env.between).found)
  }

  // ---------------------------------------------------------------- one run

  ghost function ProcessedUpTo(s: State, plans: seq<Plan>, envs: seq<Surroundings>, n: nat): State
    requires n <= |plans| == |envs|
  {
    if n == 0 then s else Processed(ProcessedUpTo(s, plans, envs, n - 1), plans[n - 1], envs[n - 1])
  }

  ghost function ProcessedAll(s: State, plans: seq<Plan>, envs: seq<Surroundings>): State
    requires |plans| == |envs|
  {
    ProcessedUpTo(s, plans, envs, |plans|)
  }

  ghost function Outcomes(s: State, plans: seq<Plan>, envs: seq<Surroundings>, n: nat): (r: seq<Outcome>)
    requires n <= |plans| == |envs|
    ensures |r| == n
  {
    if n == 0 then []
    else
      var before := ProcessedUpTo(s, plans, envs, n - 1);
      Outcomes(s, plans, envs, n - 1) + [OutcomeOf(before, plans[n - 1], envs[n - 1])]
  }

  function AuditUpTo(plans: seq<Plan>, n: nat): seq<Attempt>
    requires n <= |plans|
  {
    if n == 0 then [] else AuditUpTo(plans, n - 1) + plans[n - 1].audit
  }

  // ---------------------------------------------------------------- at most one open match

  lemma {:induction false} InsertedKeepsOneOpen(s: State, id: MatchId, m: Match, between: Option<Matches>)
    requires OneOpen(s.matches)
    ensures OneOpen(Inserted(s, id, m, between).state.matches)
  {
  }

  lemma {:induction false} ProcessedKeepsOneOpen(s: State, p: Plan, env: Surroundings)
    requires OneOpen(s.matches)
    ensures OneOpen(Processed(s, p, env).matches)
  {
  }
}
