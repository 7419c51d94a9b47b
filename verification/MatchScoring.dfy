/** Which organisations may take an adopter's people group, and how well each one fits. */
module MatchScoring {
  import opened Options
  import opened Texts

  type OrgId = nat
  type PeopleGroup = string

  /** Ids compare as their texts do. */
  datatype Org = Org(
    id: OrgId, active: bool, capacityTotal: int, capacityCommitted: int,
    country: Option<string>, languages: Option<seq<string>>, lastAssignedAt: Option<int>)

  datatype Adopter = Adopter(country: Option<string>, languages: Option<seq<string>>)

  datatype Candidate = Candidate(org: Org, covered: set<PeopleGroup>)

  /** The CHECK constraints on capacities. */
  predicate Checked(o: Org) {
    0 <= o.capacityCommitted <= o.capacityTotal
  }

  // ---------------------------------------------------------------- hard filter

  datatype FilterReason = Passed | Inactive | NoCapacity | NoCoverage | Excluded

  function HardFilter(c: Candidate, people: PeopleGroup, excluded: set<OrgId>): (r: FilterReason)
    ensures r.Passed? <==> c.org.id !in excluded && c.org.active && c.org.capacityCommitted < c.org.capacityTotal
                           && people in c.covered
    ensures c.org.id in excluded <==> r.Excluded?
  {
    if c.org.id in excluded then Excluded
    else if !c.org.active then Inactive
    else if c.org.capacityCommitted >= c.org.capacityTotal then NoCapacity
    else if people !in c.covered then NoCoverage
    else Passed
  }

  // ---------------------------------------------------------------- score components

  function Max(a: int, b: int): int {
    if a >= b then a else b
  }

  function CapacityHeadroom(o: Org): real {
    var total := if o.capacityTotal == 0 then 1 else o.capacityTotal;
    var free := Max(o.capacityTotal - o.capacityCommitted, 0);
    var ratio := free as real / total as real;
    if ratio <= 1.0 then ratio else 1.0
  }

  predicate Blank(s: Option<string>) {
    s.None? || s.value == ""
  }

  function Geography(a: Adopter, o: Org): real {
    if Blank(a.country) || Blank(o.country) then 0.0 else if a.country == o.country then 1.0 else 0.0
  }

  function Lowered(codes: seq<string>): set<string> {
    set c | c in codes :: Lower(c)
  }

  function LanguagesOf(codes: Option<seq<string>>): set<string> {
    if codes.None? then {} else Lowered(codes.value)
  }

  function Language(a: Adopter, o: Org): real {
    if a.languages.None? || a.languages.value == [] || o.languages.None? || o.languages.value == [] then 0.0
    else
      var mine, theirs := Lowered(a.languages.value), Lowered(o.languages.value);
      var union := mine + theirs;
      if union == {} then 0.0 else |mine * theirs| as real / |union| as real
  }

  function FpgAffinity(people: PeopleGroup, covered: set<PeopleGroup>): real {
    if people in covered then 1.0 else 0.0
  }

  function Theological(a: Adopter, o: Org): real {
    0.0
  }

  datatype ScoreVector = ScoreVector(
    capacityHeadroom: real, geography: real, language: real, fpgAffinity: real, theological: real)

  datatype Weights = Weights(
    capacityHeadroom: real, geography: real, language: real, fpgAffinity: real, theological: real)

  const DEFAULT_WEIGHTS := Weights(0.40, 0.30, 0.15, 0.10, 0.05)

  /** The module refuses to load with weights that do not sum to one. */
  predicate Proper(w: Weights) {
    && w.capacityHeadroom >= 0.0 && w.geography >= 0.0 && w.language >= 0.0 && w.fpgAffinity >= 0.0 && w.theological >= 0.0
    && w.capacityHeadroom + w.geography + w.language + w.fpgAffinity + w.theological == 1.0
  }

  function Score(a: Adopter, c: Candidate, people: PeopleGroup): ScoreVector {
    ScoreVector(CapacityHeadroom(c.org), Geography(a, c.org), Language(a, c.org), FpgAffinity(people, c.covered), Theological(a, c.org))
  }

  function WeightedTotal(s: ScoreVector, w: Weights): real {
    s.capacityHeadroom * w.capacityHeadroom + s.geography * w.geography + s.language * w.language
    + s.fpgAffinity * w.fpgAffinity + s.theological * w.theological
  }

  // ---------------------------------------------------------------- what the components mean

  lemma {:induction false} FractionBounds(n: int, d: int)
    requires 0 <= n && 0 < d
    ensures n as real / d as real >= 0.0
    ensures n as real / d as real <= 1.0 <==> n <= d
    ensures n as real / d as real == 1.0 <==> n == d
    ensures n as real / d as real == 0.0 <==> n == 0
  {
  }

  /** For an organisation as the table admits it: the free share of its capacity, full only with
      nobody assigned and zero only when there is no room. */
  lemma {:induction false} HeadroomMeaning(o: Org)
    requires Checked(o)
    ensures 0.0 <= CapacityHeadroom(o) <= 1.0
    ensures CapacityHeadroom(o) == 0.0 <==> o.capacityCommitted >= o.capacityTotal
    ensures CapacityHeadroom(o) == 1.0 <==> o.capacityCommitted == 0 && o.capacityTotal > 0
    ensures CapacityHeadroom(o) * o.capacityTotal as real == (o.capacityTotal - o.capacityCommitted) as real
  {
  }

  lemma {:induction false} SubsetCounts<T>(a: set<T>, b: set<T>)
    requires a <= b
    ensures |a| <= |b| && (|a| == |b| <==> a == b)
  {
    var rest := b - a;
    assert b == a + rest && |b| == |a| + |rest|;
  }

  /** The overlap of the two language sets up to case: none iff they share no code, full iff they are
      the same set and not empty. */
  lemma {:induction false} LanguageMeaning(a: Adopter, o: Org)
    ensures 0.0 <= Language(a, o) <= 1.0
    ensures Language(a, o) == 0.0 <==> LanguagesOf(a.languages) * LanguagesOf(o.languages) == {}
    ensures Language(a, o) == 1.0 <==> LanguagesOf(a.languages) == LanguagesOf(o.languages) != {}
  {
    if a.languages.None? || a.languages.value == [] || o.languages.None? || o.languages.value == [] {
    } else {
      var mine, theirs := Lowered(a.languages.value), Lowered(o.languages.value);
      assert Lower(a.languages.value[0]) in mine;
      SubsetCounts(mine * theirs, mine + theirs);
      FractionBounds(|mine * theirs|, |mine + theirs|);
      if mine * theirs == mine + theirs {
        assert forall c :: c in mine <==> c in theirs;
      }
    }
  }

  /** Both name a country, and the same one. */
  predicate SameCountry(a: Adopter, o: Org) {
    a.country.Some? && a.country.value != "" && o.country == a.country
  }

  lemma {:induction false} GeographyMeaning(a: Adopter, o: Org)
    ensures Geography(a, o) == 1.0 <==> SameCountry(a, o)
    ensures Geography(a, o) == 0.0 <==> !SameCountry(a, o)
  {
  }

  /** The language codes a row names, up to case. */
  function Codes(languages: Option<seq<string>>): set<string> {
    set c | languages.Some? && c in languages.value :: Lower(c)
  }

  /** The share of what either names that both name. */
  function Shared(mine: set<string>, theirs: set<string>): real {
    if mine + theirs == {} then 0.0 else |mine * theirs| as real / |mine + theirs| as real
  }

  function FreeShare(o: Org): real
    requires o.capacityTotal > 0
  {
    (o.capacityTotal - o.capacityCommitted) as real / o.capacityTotal as real
  }

  /** What a candidate that passes the filter is worth, in terms of the rows alone. */
  function Worth(a: Adopter, o: Org, w: Weights): real
    requires o.capacityTotal > 0
  {
    Weighed(FreeShare(o), SameCountry(a, o), Shared(Codes(a.languages), Codes(o.languages)), w)
  }

  function Weighed(free: real, sameCountry: bool, shared: real, w: Weights): real {
    free * w.capacityHeadroom + (if sameCountry then w.geography else 0.0) + shared * w.language + w.fpgAffinity
  }

  lemma {:induction false} NothingShared(mine: set<string>, theirs: set<string>)
    requires mine * theirs == {}
    ensures Shared(mine, theirs) == 0.0
  {
    if mine + theirs != {} {
      FractionBounds(0, |mine + theirs|);
    }
  }

  lemma {:induction false} LanguageIsShared(a: Adopter, o: Org)
    ensures Language(a, o) == Shared(Codes(a.languages), Codes(o.languages))
  {
    if a.languages.None? || a.languages.value == [] || o.languages.None? || o.languages.value == [] {
      NothingShared(Codes(a.languages), Codes(o.languages));
    } else {
      assert Codes(a.languages) == Lowered(a.languages.value);
      assert Codes(o.languages) == Lowered(o.languages.value);
    }
  }

  lemma {:induction false} HeadroomIsFree(o: Org)
    requires Checked(o) && o.capacityTotal > 0
    ensures CapacityHeadroom(o) == FreeShare(o)
  {
    FractionBounds(o.capacityTotal - o.capacityCommitted, o.capacityTotal);
  }

  lemma {:induction false} TotalOfParts(s: ScoreVector, w: Weights, same: bool)
    requires s.geography == (if same then 1.0 else 0.0) && s.fpgAffinity == 1.0 && s.theological == 0.0
    ensures WeightedTotal(s, w) == Weighed(s.capacityHeadroom, same, s.language, w)
  {
  }

  lemma {:induction false} PartsOfPassing(a: Adopter, c: Candidate, people: PeopleGroup, excluded: set<OrgId>)
    requires HardFilter(c, people, excluded).Passed? && Checked(c.org)
    ensures var s := Score(a, c, people);
      && s.capacityHeadroom == FreeShare(c.org)
      && s.geography == (if SameCountry(a, c.org) then 1.0 else 0.0)
      && s.language == Shared(Codes(a.languages), Codes(c.org.languages))
      && s.fpgAffinity == 1.0 && s.theological == 0.0
  {
    LanguageIsShared(a, c.org);
    HeadroomIsFree(c.org);
    GeographyMeaning(a, c.org);
  }

  /** The total is made of exactly this: the free share of the capacity, the same country, the shared part of
      the languages and the people group, each with its weight. */
  lemma {:induction false} TotalIsTheWorth(a: Adopter, c: Candidate, people: PeopleGroup, excluded: set<OrgId>, w: Weights)
    requires HardFilter(c, people, excluded).Passed? && Checked(c.org)
    ensures WeightedTotal(Score(a, c, people), w) == Worth(a, c.org, w)
  {
    PartsOfPassing(a, c, people, excluded);
    TotalOfParts(Score(a, c, people), w, SameCountry(a, c.org));
  }

  predicate Unit(x: real) {
    0.0 <= x <= 1.0
  }

  lemma {:induction false} ProductSign(x: real, y: real)
    requires x >= 0.0 && y >= 0.0
    ensures x * y >= 0.0
  {
  }

  lemma {:induction false} ShareOfWeight(x: real, w: real) returns (share: real)
    requires Unit(x) && w >= 0.0
    ensures share == x * w && 0.0 <= share <= w
  {
    share := x * w;
    ProductSign(x, w);
    ProductSign(1.0 - x, w);
    assert (1.0 - x) * w == w - share;
  }

  lemma {:induction false} WeightedMean(s: ScoreVector, w: Weights)
    requires Unit(s.capacityHeadroom) && Unit(s.geography) && Unit(s.language) && Unit(s.fpgAffinity)
    requires s.theological == 0.0 && Proper(w)
    ensures 0.0 <= WeightedTotal(s, w) <= 1.0 - w.theological
  {
    var capacity := ShareOfWeight(s.capacityHeadroom, w.capacityHeadroom);
    var geography := ShareOfWeight(s.geography, w.geography);
    var language := ShareOfWeight(s.language, w.language);
    var affinity := ShareOfWeight(s.fpgAffinity, w.fpgAffinity);
    assert s.theological * w.theological == 0.0;
    assert WeightedTotal(s, w) == capacity + geography + language + affinity;
  }

  /** Every weighted total lies in the unit interval; the part of the theological weight is never
      reached, since that component is always zero. */
  lemma {:induction false} TotalsInUnitRange(a: Adopter, c: Candidate, people: PeopleGroup, w: Weights)
    requires Checked(c.org) && Proper(w)
    ensures 0.0 <= WeightedTotal(Score(a, c, people), w) <= 1.0 - w.theological
  {
    HeadroomMeaning(c.org);
    LanguageMeaning(a, c.org);
    WeightedMean(Score(a, c, people), w);
  }

  /** Changing one component changes the total by that much times its weight. */
  lemma {:induction false} EachComponentHasItsWeight(s: ScoreVector, w: Weights, x: real)
    ensures WeightedTotal(s.(capacityHeadroom := x), w) - WeightedTotal(s, w) == (x - s.capacityHeadroom) * w.capacityHeadroom
    ensures WeightedTotal(s.(geography := x), w) - WeightedTotal(s, w) == (x - s.geography) * w.geography
    ensures WeightedTotal(s.(language := x), w) - WeightedTotal(s, w) == (x - s.language) * w.language
    ensures WeightedTotal(s.(fpgAffinity := x), w) - WeightedTotal(s, w) == (x - s.fpgAffinity) * w.fpgAffinity
    ensures WeightedTotal(s.(theological := x), w) - WeightedTotal(s, w) == (x - s.theological) * w.theological
  {
  }

  lemma {:induction false} AffinityAndMore(s: ScoreVector, w: Weights)
    requires Unit(s.capacityHeadroom) && Unit(s.geography) && Unit(s.language) && s.fpgAffinity == 1.0
    requires s.theological == 0.0 && Proper(w)
    ensures WeightedTotal(s, w) >= w.fpgAffinity
    ensures s.capacityHeadroom > 0.0 && w.capacityHeadroom > 0.0 ==> WeightedTotal(s, w) > w.fpgAffinity
  {
    var capacity := ShareOfWeight(s.capacityHeadroom, w.capacityHeadroom);
    var geography := ShareOfWeight(s.geography, w.geography);
    var language := ShareOfWeight(s.language, w.language);
    assert s.theological * w.theological == 0.0 && s.fpgAffinity * w.fpgAffinity == w.fpgAffinity;
    assert WeightedTotal(s, w) == capacity + geography + language + w.fpgAffinity;
    if s.capacityHeadroom > 0.0 && w.capacityHeadroom > 0.0 {
      ProductIsPositive(s.capacityHeadroom, w.capacityHeadroom);
    }
  }

  /** Whoever passes the filter covers the people group and has room, so that its total exceeds the weight
      of the affinity by a share of the weight of the headroom. */
  lemma {:induction false} PassingScoresAtLeastTheAffinity(a: Adopter, c: Candidate, people: PeopleGroup, excluded: set<OrgId>, w: Weights)
    requires HardFilter(c, people, excluded).Passed? && Checked(c.org) && Proper(w)
    ensures WeightedTotal(Score(a, c, people), w) >= w.fpgAffinity
    ensures w.capacityHeadroom > 0.0 ==> WeightedTotal(Score(a, c, people), w) > w.fpgAffinity
  {
    HeadroomMeaning(c.org);
    LanguageMeaning(a, c.org);
    AffinityAndMore(Score(a, c, people), w);
  }

  lemma {:induction false} ProductIsPositive(x: real, y: real)
    requires x > 0.0 && y > 0.0
    ensures x * y > 0.0
  {
  }

  // ---------------------------------------------------------------- rounding

  /** round(x, 3) as a number of thousandths: to the nearest, ties to even. */
  function Thousandths(x: real): int {
    var scaled := x * 1000.0;
    var low := scaled.Floor;
    var over := scaled - low as real;
    if over < 0.5 then low else if over > 0.5 then low + 1 else if low % 2 == 0 then low else low + 1
  }

  lemma {:induction false} RoundingMeaning(x: real, y: real)
    ensures -0.5 <= Thousandths(x) as real - x * 1000.0 <= 0.5
    ensures x <= y ==> Thousandths(x) <= Thousandths(y)
    ensures 0.0 <= x <= 1.0 ==> 0 <= Thousandths(x) <= 1000
    ensures Thousandths(x) as real - x * 1000.0 == 0.5 || x * 1000.0 - Thousandths(x) as real == 0.5 ==> Thousandths(x) % 2 == 0
  {
  }

  /** When y is not rounded above x, y itself exceeds x by at most one thousandth. */
  lemma {:induction false} RoundingHidesLittle(x: real, y: real)
    requires Thousandths(x) >= Thousandths(y)
    ensures x >= y - 0.001
  {
  }
}
