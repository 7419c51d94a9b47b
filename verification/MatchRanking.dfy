/** The ranked list of one interest: order, ranks, and what rounding does to it. */
module MatchRanking {
  import opened Options
  import opened MatchScoring

  /** total is in thousandths and is both the sort key and the stored score. */
  datatype Scored = Scored(org: Org, exact: real, total: int)

  const TOP_N_RECOMMENDED := 3
  const MIN_SCORE_FLOOR := 0

  /** What one interest is matched by. */
  datatype Question = Question(adopter: Adopter, people: PeopleGroup, excluded: set<OrgId>, weights: Weights)

  /** None when the filter rejects the candidate. */
  function Evaluate(q: Question, c: Candidate): (r: Option<Scored>)
    ensures r.Some? <==> HardFilter(c, q.people, q.excluded).Passed?
    ensures r.Some? ==> r.value.org == c.org && r.value.total == Thousandths(r.value.exact)
    ensures r.Some? && Checked(c.org) ==> r.value.exact == Worth(q.adopter, c.org, q.weights)
    ensures r.Some? && Proper(q.weights) && Checked(c.org) ==> 0.0 <= r.value.exact <= 1.0 && 0 <= r.value.total <= 1000
  {
    if HardFilter(c, q.people, q.excluded).Passed? then
      var exact := WeightedTotal(Score(q.adopter, c, q.people), q.weights);
      assert Proper(q.weights) && Checked(c.org) ==> 0.0 <= exact <= 1.0 && 0 <= Thousandths(exact) <= 1000 by {
        if Proper(q.weights) && Checked(c.org) {
          TotalsInUnitRange(q.adopter, c, q.people, q.weights);
          RoundingMeaning(exact, exact);
        }
      }
      assert Checked(c.org) ==> exact == Worth(q.adopter, c.org, q.weights) by {
        if Checked(c.org) {
          TotalIsTheWorth(q.adopter, c, q.people, q.excluded, q.weights);
        }
      }
      Some(Scored(c.org, exact, Thousandths(exact)))
    else None
  }

  function Evaluator(q: Question): Candidate -> Option<Scored> {
    c => Evaluate(q, c)
  }

  function Listed<B>(y: Option<B>): seq<B> {
    if y.None? then [] else [y.value]
  }

  /** The values f gives, in order. */
  function Collect<A, B>(f: A -> Option<B>, s: seq<A>): seq<B> {
    if s == [] then []
    else Listed(f(s[0])) + Collect(f, s[1..])
  }

  /** The candidates that pass the filter, with their scores. */
  function Passing(q: Question, candidates: seq<Candidate>): seq<Scored> {
    Collect(Evaluator(q), candidates)
  }

  /** Never assigned comes first, then the longest ago. */
  predicate AssignedEarlier(x: Option<int>, y: Option<int>) {
    y.Some? && (x.None? || x.value < y.value)
  }

  predicate Before(x: Scored, y: Scored) {
    || x.total > y.total
    || (x.total == y.total && AssignedEarlier(x.org.lastAssignedAt, y.org.lastAssignedAt))
    || (x.total == y.total && x.org.lastAssignedAt == y.org.lastAssignedAt && x.org.id < y.org.id)
  }

  function Insert(x: Scored, ranked: seq<Scored>): (r: seq<Scored>)
    ensures multiset(r) == multiset(ranked) + multiset{x}
  {
    if ranked == [] || Before(x, ranked[0]) then [x] + ranked
    else
      assert ranked == [ranked[0]] + ranked[1..];
      [ranked[0]] + Insert(x, ranked[1..])
  }

  function Ranked(scored: seq<Scored>): (r: seq<Scored>)
    ensures multiset(r) == multiset(scored) && |r| == |scored|
  {
    if scored == [] then []
    else
      assert scored == [scored[0]] + scored[1..];
      var r := Insert(scored[0], Ranked(scored[1..]));
      assert |multiset(r)| == |r| && |multiset(scored)| == |scored|;
      r
  }

  function AtFloor(ranked: seq<Scored>): seq<Scored> {
    if ranked == [] then []
    else (if ranked[0].total >= MIN_SCORE_FLOOR then [ranked[0]] else []) + AtFloor(ranked[1..])
  }

  function Promoted(ranked: seq<Scored>): seq<Scored> {
    var kept := AtFloor(ranked);
    if |kept| <= TOP_N_RECOMMENDED then kept else kept[..TOP_N_RECOMMENDED]
  }

  /** The lookup built from the promoted list, positions counted from one. */
  function RankOf(promoted: seq<Scored>, id: OrgId): Option<nat> {
    if promoted == [] then None
    else if promoted[|promoted| - 1].org.id == id then Some(|promoted|)
    else RankOf(promoted[..|promoted| - 1], id)
  }

  // ---------------------------------------------------------------- a strict total order

  lemma {:induction false} BeforeIsAStrictOrder(x: Scored, y: Scored, z: Scored)
    ensures !Before(x, x)
    ensures Before(x, y) && Before(y, z) ==> Before(x, z)
    ensures x.org.id != y.org.id ==> Before(x, y) || Before(y, x)
  {
  }

  predicate DistinctIds(scored: seq<Scored>) {
    forall i, j :: 0 <= i < j < |scored| ==> scored[i].org.id != scored[j].org.id
  }

  predicate StrictlySorted(ranked: seq<Scored>) {
    forall i, j :: 0 <= i < j < |ranked| ==> Before(ranked[i], ranked[j])
  }

  lemma {:induction false} InsertKeepsSorted(x: Scored, ranked: seq<Scored>)
    requires StrictlySorted(ranked) && forall i :: 0 <= i < |ranked| ==> ranked[i].org.id != x.org.id
    ensures StrictlySorted(Insert(x, ranked))
  {
    if ranked != [] && !Before(x, ranked[0]) {
      var rest := Insert(x, ranked[1..]);
      InsertKeepsSorted(x, ranked[1..]);
      forall j | 0 <= j < |rest| ensures Before(ranked[0], rest[j]) {
        assert rest[j] in multiset(rest);
      }
    }
  }

  /** The ranked list is a permutation of the passing candidates in strict order. */
  lemma {:induction false} RankedIsSorted(scored: seq<Scored>)
    requires DistinctIds(scored)
    ensures StrictlySorted(Ranked(scored)) && multiset(Ranked(scored)) == multiset(scored)
  {
    if scored != [] {
      var rest := Ranked(scored[1..]);
      RankedIsSorted(scored[1..]);
      forall i | 0 <= i < |rest| ensures rest[i].org.id != scored[0].org.id {
        assert rest[i] in multiset(rest);
        assert rest[i] in scored[1..];
      }
      InsertKeepsSorted(scored[0], rest);
    }
  }

  lemma {:induction false} SortedHead(s: seq<Scored>, t: seq<Scored>)
    requires StrictlySorted(s) && StrictlySorted(t) && multiset(s) == multiset(t) && s != [] && t != []
    ensures s[0] == t[0]
  {
    assert s[0] in multiset(t) && t[0] in multiset(s);
    var i :| 0 <= i < |t| && t[i] == s[0];
    var j :| 0 <= j < |s| && s[j] == t[0];
    BeforeIsAStrictOrder(s[0], t[0], s[0]);
  }

  /** There is only one way to sort. */
  lemma {:induction false} SortedIsUnique(s: seq<Scored>, t: seq<Scored>)
    requires StrictlySorted(s) && StrictlySorted(t) && multiset(s) == multiset(t)
    ensures s == t
  {
    assert |s| == |multiset(s)| == |multiset(t)| == |t|;
    if s != [] {
      SortedHead(s, t);
      assert s == [s[0]] + s[1..] && t == [t[0]] + t[1..];
      assert multiset(s[1..]) == multiset(s) - multiset{s[0]};
      assert multiset(t[1..]) == multiset(t) - multiset{t[0]};
      SortedIsUnique(s[1..], t[1..]);
    }
  }

  // ---------------------------------------------------------------- independence of the load order

  lemma {:induction false} CollectedFrom<A(!new), B>(f: A -> Option<B>, s: seq<A>, y: B)
    ensures y in Collect(f, s) <==> exists x :: x in s && f(x) == Some(y)
  {
    if s != [] {
      CollectedFrom(f, s[1..], y);
      assert s == [s[0]] + s[1..];
    }
  }

  lemma {:induction false} Associative<B>(x: seq<B>, y: seq<B>, z: seq<B>)
    ensures x + y + z == x + (y + z)
  {
  }

  lemma {:induction false} CollectInParts<A, B>(f: A -> Option<B>, s: seq<A>, t: seq<A>)
    ensures Collect(f, s + t) == Collect(f, s) + Collect(f, t)
  {
    if s == [] {
      assert s + t == t;
    } else {
      CollectInParts(f, s[1..], t);
      assert (s + t)[1..] == s[1..] + t && (s + t)[0] == s[0];
      Associative(Listed(f(s[0])), Collect(f, s[1..]), Collect(f, t));
    }
  }

  function Without<T>(s: seq<T>, k: nat): (r: seq<T>)
    requires k < |s|
    ensures |r| == |s| - 1 && multiset(r) == multiset(s) - multiset{s[k]}
  {
    assert s == s[..k] + [s[k]] + s[k + 1..];
    s[..k] + s[k + 1..]
  }

  lemma {:induction false} MiddleFirst<B>(left: seq<B>, middle: seq<B>, right: seq<B>)
    ensures multiset(left + (middle + right)) == multiset(middle) + multiset(left + right)
  {
  }

  lemma {:induction false} CollectAround<A, B>(f: A -> Option<B>, left: seq<A>, x: A, right: seq<A>)
    ensures Collect(f, left + ([x] + right)) == Collect(f, left) + (Listed(f(x)) + Collect(f, right))
  {
    CollectInParts(f, left, [x] + right);
    assert ([x] + right)[1..] == right;
  }

  lemma {:induction false} CollectWithout<A, B>(f: A -> Option<B>, s: seq<A>, k: nat)
    requires k < |s|
    ensures multiset(Collect(f, s)) == multiset(Listed(f(s[k]))) + multiset(Collect(f, Without(s, k)))
  {
    var left, right := s[..k], s[k + 1..];
    assert s == left + ([s[k]] + right);
    CollectAround(f, left, s[k], right);
    CollectInParts(f, left, right);
    MiddleFirst(Collect(f, left), Listed(f(s[k])), Collect(f, right));
  }

  lemma {:induction false} CollectOfPermutation<A, B>(f: A -> Option<B>, s: seq<A>, t: seq<A>)
    requires multiset(s) == multiset(t)
    ensures multiset(Collect(f, s)) == multiset(Collect(f, t))
    decreases |s|
  {
    if s == [] {
      assert |t| == |multiset(t)| == 0;
    } else {
      assert s[0] in multiset(t);
      var k :| 0 <= k < |t| && t[k] == s[0];
      CollectOfPermutation(f, Without(s, 0), Without(t, k));
      CollectWithout(f, s, 0);
      CollectWithout(f, t, k);
    }
  }

  lemma {:induction false} PassingOneMore(q: Question, candidates: seq<Candidate>, k: nat)
    requires k < |candidates|
    ensures Passing(q, candidates[..k + 1]) == Passing(q, candidates[..k]) + Listed(Evaluate(q, candidates[k]))
  {
    CollectInParts(Evaluator(q), candidates[..k], [candidates[k]]);
    assert candidates[..k + 1] == candidates[..k] + [candidates[k]];
  }

  predicate DistinctOrgs(candidates: seq<Candidate>) {
    forall i, j :: 0 <= i < j < |candidates| ==> candidates[i].org.id != candidates[j].org.id
  }

  lemma {:induction false} PassingKeepsIdsDistinct(q: Question, candidates: seq<Candidate>)
    requires DistinctOrgs(candidates)
    ensures DistinctIds(Passing(q, candidates))
  {
    if candidates != [] {
      var rest := Passing(q, candidates[1..]);
      PassingKeepsIdsDistinct(q, candidates[1..]);
      forall i | 0 <= i < |rest| ensures rest[i].org.id != candidates[0].org.id {
        CollectedFrom(Evaluator(q), candidates[1..], rest[i]);
      }
    }
  }

  /** Loading the organisations in another order gives the same ranked list. */
  lemma {:induction false} LoadOrderDoesNotMatter(q: Question, s: seq<Candidate>, t: seq<Candidate>)
    requires multiset(s) == multiset(t) && DistinctOrgs(s) && DistinctOrgs(t)
    ensures Ranked(Passing(q, s)) == Ranked(Passing(q, t))
  {
    PassingKeepsIdsDistinct(q, s);
    PassingKeepsIdsDistinct(q, t);
    CollectOfPermutation(Evaluator(q), s, t);
    RankedIsSorted(Passing(q, s));
    RankedIsSorted(Passing(q, t));
    SortedIsUnique(Ranked(Passing(q, s)), Ranked(Passing(q, t)));
  }

  // ---------------------------------------------------------------- ranks

  lemma {:induction false} NothingBelowTheFloor(ranked: seq<Scored>)
    requires forall i :: 0 <= i < |ranked| ==> ranked[i].total >= 0
    ensures AtFloor(ranked) == ranked
  {
    if ranked != [] {
      NothingBelowTheFloor(ranked[1..]);
      assert ranked == [ranked[0]] + ranked[1..];
    }
  }

  predicate AllChecked(candidates: seq<Candidate>) {
    forall i :: 0 <= i < |candidates| ==> Checked(candidates[i].org)
  }

  /** Scores lie in the unit interval, before rounding and after. */
  lemma {:induction false} RankedInRange(q: Question, candidates: seq<Candidate>, i: nat)
    requires i < |Ranked(Passing(q, candidates))|
    ensures var x := Ranked(Passing(q, candidates))[i];
            && x.total == Thousandths(x.exact)
            && (Proper(q.weights) && AllChecked(candidates) ==> 0.0 <= x.exact <= 1.0 && 0 <= x.total <= 1000)
  {
    var x := Ranked(Passing(q, candidates))[i];
    assert x in multiset(Ranked(Passing(q, candidates)));
    CollectedFrom(Evaluator(q), candidates, x);
  }

  /** With weights that make a mean and capacities the table admits, no score is below the floor: the
      branch in which nothing is promoted is never taken. */
  lemma {:induction false} FloorIsNeverFelt(q: Question, candidates: seq<Candidate>)
    requires Proper(q.weights) && AllChecked(candidates)
    ensures var ranked := Ranked(Passing(q, candidates));
            AtFloor(ranked) == ranked && (ranked != [] ==> Promoted(ranked) != [])
  {
    var ranked := Ranked(Passing(q, candidates));
    forall i | 0 <= i < |ranked| ensures ranked[i].total >= 0 {
      RankedInRange(q, candidates, i);
    }
    NothingBelowTheFloor(ranked);
  }

  lemma {:induction false} RankOfIsThePosition(promoted: seq<Scored>, id: OrgId)
    requires DistinctIds(promoted)
    ensures forall k: nat :: RankOf(promoted, id) == Some(k) <==> 1 <= k <= |promoted| && promoted[k - 1].org.id == id
    ensures RankOf(promoted, id).None? <==> forall k :: 0 <= k < |promoted| ==> promoted[k].org.id != id
  {
    if promoted != [] {
      RankOfIsThePosition(promoted[..|promoted| - 1], id);
    }
  }

  lemma {:induction false} RankedIdsDiffer(scored: seq<Scored>)
    requires DistinctIds(scored)
    ensures DistinctIds(Ranked(scored))
  {
    var ranked := Ranked(scored);
    RankedIsSorted(scored);
    forall i, j | 0 <= i < j < |ranked| ensures ranked[i].org.id != ranked[j].org.id {
      assert ranked[i] in multiset(scored) && ranked[j] in multiset(scored);
      BeforeIsAStrictOrder(ranked[i], ranked[i], ranked[j]);
    }
  }

  lemma {:induction false} RankIsThePlace(ranked: seq<Scored>, id: OrgId, k: nat)
    requires DistinctIds(ranked) && AtFloor(ranked) == ranked
    ensures RankOf(Promoted(ranked), id) == Some(k) <==> 1 <= k <= 3 && k <= |ranked| && ranked[k - 1].org.id == id
  {
    RankOfIsThePosition(Promoted(ranked), id);
  }

  /** An organisation has rank k exactly when it is the k-th of the ranked list and k is at most three. */
  lemma {:induction false} RanksAreOneToThree(q: Question, candidates: seq<Candidate>, id: OrgId, k: nat)
    requires Proper(q.weights) && DistinctOrgs(candidates) && AllChecked(candidates)
    ensures var ranked := Ranked(Passing(q, candidates));
            RankOf(Promoted(ranked), id) == Some(k) <==> 1 <= k <= 3 && k <= |ranked| && ranked[k - 1].org.id == id
  {
    FloorIsNeverFelt(q, candidates);
    PassingKeepsIdsDistinct(q, candidates);
    RankedIdsDiffer(Passing(q, candidates));
    RankIsThePlace(Ranked(Passing(q, candidates)), id, k);
  }

  // ---------------------------------------------------------------- rounding and rank

  /** Nobody ranked behind another beats it by more than a thousandth before rounding. In particular
      the first is within a thousandth of the best. */
  lemma {:induction false} RankFollowsScoreWithinAThousandth(q: Question, candidates: seq<Candidate>, i: nat, j: nat)
    requires DistinctOrgs(candidates)
    requires i <= j < |Ranked(Passing(q, candidates))|
    ensures Ranked(Passing(q, candidates))[i].exact >= Ranked(Passing(q, candidates))[j].exact - 0.001
  {
    var ranked := Ranked(Passing(q, candidates));
    PassingKeepsIdsDistinct(q, candidates);
    RankedIsSorted(Passing(q, candidates));
    RankedInRange(q, candidates, i);
    RankedInRange(q, candidates, j);
    RoundingHidesLittle(ranked[i].exact, ranked[j].exact);
  }

  const FIRST_TIMER := Candidate(Org(2, true, 1000, 668, None, None, None), {"P"})
  const OLD_HAND := Candidate(Org(1, true, 3, 2, None, None, Some(0)), {"P"})
  const ANYONE := Question(Adopter(None, None), "P", {}, DEFAULT_WEIGHTS)

  lemma {:induction false} FirstTimerScores()
    ensures Evaluate(ANYONE, FIRST_TIMER) == Some(Scored(FIRST_TIMER.org, 0.2328, 233))
  {
    assert CapacityHeadroom(FIRST_TIMER.org) == 0.332;
  }

  lemma {:induction false} OldHandScores()
    ensures var scored := Evaluate(ANYONE, OLD_HAND);
            scored.Some? && scored.value.org == OLD_HAND.org && scored.value.exact > 0.2333 && scored.value.total == 233
  {
    assert CapacityHeadroom(OLD_HAND.org) == 1.0 / 3.0;
  }

  /** Such a thousandth can matter: rounded, these two are level, and the one never assigned goes first
      although its score is lower. */
  lemma {:induction false} RoundingCanPutTheLowerFirst()
    ensures Evaluate(ANYONE, FIRST_TIMER).Some? && Evaluate(ANYONE, OLD_HAND).Some?
    ensures Before(Evaluate(ANYONE, FIRST_TIMER).value, Evaluate(ANYONE, OLD_HAND).value)
    ensures Evaluate(ANYONE, FIRST_TIMER).value.exact < Evaluate(ANYONE, OLD_HAND).value.exact
  {
    FirstTimerScores();
    OldHandScores();
  }
}
