/** The viability score of a template and what it says of the system. */
module Viability {
  import opened Arithmetic
  import opened Atmosphere
  import opened Hexes
  import opened Options
  import opened Prng
  import opened Templates

  // ----- life support -----

  function GasesOf(s: seq<GasShare>): (gs: set<Gas>) {
    set g | g in s :: g.gas
  }

  /** Two less for oxygen, two more for each gas the home planet lacks. */
  function AirLSN(s: seq<GasShare>, home: set<Gas>): (lsn: int) {
    if s == [] then 0
    else
      var g := s[|s| - 1].gas;
      AirLSN(s[..|s| - 1], home) - (if g == O2 then 2 else 0) + (if g !in home then 2 else 0)
  }

  function LSN(candidate: TemplatePlanet, home: TemplatePlanet): (lsn: int) {
    2 * Abs(candidate.temperatureClass - home.temperatureClass)
    + 2 * Abs(candidate.pressureClass - home.pressureClass)
    + 2 + AirLSN(candidate.atmosphere, GasesOf(home.atmosphere))
  }

  method ApproximateLSN(candidate: TemplatePlanet, home: TemplatePlanet) returns (lsn: int)
    ensures lsn == LSN(candidate, home)
  {
    lsn := 0;
    lsn := lsn + 2 * Abs(candidate.temperatureClass - home.temperatureClass);
    lsn := lsn + 2 * Abs(candidate.pressureClass - home.pressureClass);
    lsn := lsn + 2;
    ghost var base := lsn;
    var homeGases: set<Gas> := {};
    var i := 0;
    while i < |home.atmosphere|
      invariant 0 <= i <= |home.atmosphere|
      invariant homeGases == GasesOf(home.atmosphere[..i])
    {
      assert home.atmosphere[..i + 1] == home.atmosphere[..i] + [home.atmosphere[i]];
      homeGases := homeGases + {home.atmosphere[i].gas};
      i := i + 1;
    }
    assert home.atmosphere[..i] == home.atmosphere;
    var k := 0;
    while k < |candidate.atmosphere|
      invariant 0 <= k <= |candidate.atmosphere|
      invariant lsn == base + AirLSN(candidate.atmosphere[..k], homeGases)
    {
      var g := candidate.atmosphere[k];
      assert candidate.atmosphere[..k + 1][..k] == candidate.atmosphere[..k];
      if g.gas == O2 {
        lsn := lsn - 2;
      }
      if g.gas !in homeGases {
        lsn := lsn + 2;
      }
      k := k + 1;
    }
    assert candidate.atmosphere[..k] == candidate.atmosphere;
  }

  ghost predicate HasOxygen(s: seq<GasShare>) {
    exists i :: 0 <= i < |s| && s[i].gas == O2
  }

  /** The last gas is oxygen or the others hold it, not both. */
  lemma OxygenSplit(s: seq<GasShare>)
    requires s != [] && DistinctGases(s)
    ensures var n := |s| - 1;
            && (HasOxygen(s) <==> s[n].gas == O2 || HasOxygen(s[..n]))
            && !(s[n].gas == O2 && HasOxygen(s[..n]))
  {
    var n := |s| - 1;
    assert forall i :: 0 <= i < n ==> s[..n][i] == s[i];
    if HasOxygen(s[..n]) {
      var i :| 0 <= i < n && s[..n][i].gas == O2;
      assert s[i].gas == O2 && s[i].gas != s[n].gas;
    }
    if HasOxygen(s) {
      var i :| 0 <= i < |s| && s[i].gas == O2;
      assert i == n || s[..n][i].gas == O2;
    }
  }

  /** Distinct gases pay the oxygen bonus at most once. */
  lemma {:induction false} AirLSNBounds(s: seq<GasShare>, home: set<Gas>)
    requires DistinctGases(s)
    ensures AirLSN(s, home) % 2 == 0
    ensures AirLSN(s, home) >= if HasOxygen(s) then -2 else 0
  {
    if s != [] {
      var n := |s| - 1;
      AirLSNBounds(s[..n], home);
      OxygenSplit(s);
    }
  }

  lemma LSNIsEvenAndNonnegative(candidate: TemplatePlanet, home: TemplatePlanet)
    requires DistinctGases(candidate.atmosphere)
    ensures LSN(candidate, home) >= 0 && LSN(candidate, home) % 2 == 0
  {
    AirLSNBounds(candidate.atmosphere, GasesOf(home.atmosphere));
  }

  lemma GasesOfLast(s: seq<GasShare>)
    requires s != []
    ensures GasesOf(s) == GasesOf(s[..|s| - 1]) + {s[|s| - 1].gas}
    ensures DistinctGases(s) ==> s[|s| - 1].gas !in GasesOf(s[..|s| - 1])
  {
    var n := |s| - 1;
    assert s == s[..n] + [s[n]];
  }

  /** With distinct gases: two for each gas the home planet lacks, two less for
      oxygen. */
  lemma {:induction false} AirLSNBySets(s: seq<GasShare>, home: set<Gas>)
    requires DistinctGases(s)
    ensures AirLSN(s, home) == 2 * |GasesOf(s) - home| - if O2 in GasesOf(s) then 2 else 0
  {
    if s == [] {
      assert GasesOf(s) - home == {};
    } else {
      var front, g := s[..|s| - 1], s[|s| - 1].gas;
      AirLSNBySets(front, home);
      GasesOfLast(s);
      assert g in home ==> GasesOf(s) - home == GasesOf(front) - home;
      assert g !in home ==> GasesOf(s) - home == (GasesOf(front) - home) + {g};
    }
  }

  /** The life support a candidate needs, by what differs from home: two for
      each class of temperature and of pressure, two for missing oxygen, two for
      each gas that home does not have. */
  function Needs(candidate: TemplatePlanet, home: TemplatePlanet): (lsn: int) {
    var air, homeAir := GasesOf(candidate.atmosphere), GasesOf(home.atmosphere);
    2 * Gap(candidate.temperatureClass, home.temperatureClass) + 2 * Gap(candidate.pressureClass, home.pressureClass)
    + (if O2 in air then 0 else 2) + 2 * |air - homeAir|
  }

  function Gap(a: int, b: int): (d: int) {
    if a < b then b - a else a - b
  }

  lemma LSNIsNeeds(candidate: TemplatePlanet, home: TemplatePlanet)
    requires DistinctGases(candidate.atmosphere)
    ensures LSN(candidate, home) == Needs(candidate, home)
  {
    AirLSNBySets(candidate.atmosphere, GasesOf(home.atmosphere));
  }

  /** Without distinct gases every further oxygen entry takes two more off: two
      entries already make the estimate of a like world negative. */
  lemma RepeatedOxygenGoesNegative(home: TemplatePlanet, s: seq<GasShare>)
    requires O2 in GasesOf(home.atmosphere) && forall i :: 0 <= i < |s| ==> s[i].gas == O2
    ensures LSN(home.(atmosphere := s), home) == 2 - 2 * |s|
  {
    OxygenAirLSN(s, GasesOf(home.atmosphere));
  }

  lemma {:induction false} OxygenAirLSN(s: seq<GasShare>, home: set<Gas>)
    requires O2 in home && forall i :: 0 <= i < |s| ==> s[i].gas == O2
    ensures AirLSN(s, home) == -2 * |s|
  {
    if s != [] {
      OxygenAirLSN(s[..|s| - 1], home);
    }
  }

  lemma {:induction false} OwnAirLSN(s: seq<GasShare>, home: set<Gas>)
    requires DistinctGases(s) && forall i :: 0 <= i < |s| ==> s[i].gas in home
    ensures AirLSN(s, home) == if HasOxygen(s) then -2 else 0
  {
    if s != [] {
      var n := |s| - 1;
      OwnAirLSN(s[..n], home);
      OxygenSplit(s);
    }
  }

  lemma HomeSupportsItself(home: TemplatePlanet)
    requires IsEarthAir(home.atmosphere)
    ensures LSN(home, home) == 0
  {
    var s := home.atmosphere;
    forall i | 0 <= i < |s| ensures s[i].gas in GasesOf(s) {
      assert s[i] in s;
    }
    assert s[|s| - 1].gas == O2;
    OwnAirLSN(s, GasesOf(s));
  }

  // ----- score -----

  /** The first special planet, or |ps| when there is none. */
  function HomeIndex(ps: seq<TemplatePlanet>): (i: nat)
    ensures i <= |ps|
    ensures i < |ps| ==> ps[i].special == 1
    ensures forall j :: 0 <= j < i ==> ps[j].special != 1
  {
    if ps == [] then 0
    else if ps[0].special == 1 then 0
    else
      var k := HomeIndex(ps[1..]);
      assert forall j :: 1 <= j < |ps| ==> ps[j] == ps[1..][j - 1];
      1 + k
  }

  function Divisor(p: TemplatePlanet, home: TemplatePlanet): (d: int) {
    (3 + LSN(p, home)) * (50 + p.mining)
  }

  function ScoreSum(ps: seq<TemplatePlanet>, home: TemplatePlanet): (score: int)
    requires forall i :: 0 <= i < |ps| ==> Divisor(ps[i], home) != 0
  {
    if ps == [] then 0
    else ScoreSum(ps[..|ps| - 1], home) + 20000 / Divisor(ps[|ps| - 1], home)
  }

  /** The integer division of the score is by zero for none of the planets. */
  ghost predicate Scorable(ps: seq<TemplatePlanet>) {
    HomeIndex(ps) < |ps| ==> forall i :: 0 <= i < |ps| ==> Divisor(ps[i], ps[HomeIndex(ps)]) != 0
  }

  function Score(ps: seq<TemplatePlanet>): (score: int)
    requires Scorable(ps)
  {
    if HomeIndex(ps) == |ps| then 0 else ScoreSum(ps, ps[HomeIndex(ps)])
  }

  method ComputeViabilityScore(planets: seq<TemplatePlanet>) returns (score: int)
    requires Scorable(planets)
    ensures score == Score(planets)
  {
    var home: Option<TemplatePlanet> := None;
    var i := 0;
    while i < |planets|
      invariant 0 <= i <= |planets|
      invariant home.None? && forall j :: 0 <= j < i ==> planets[j].special != 1
    {
      if planets[i].special == 1 {
        home := Some(planets[i]);
        break;
      }
      i := i + 1;
    }
    if home.None? {
      return 0;
    }
    assert HomeIndex(planets) == i;
    score := 0;
    var k := 0;
    while k < |planets|
      invariant 0 <= k <= |planets|
      invariant score == ScoreSum(planets[..k], home.value)
    {
      var lsn := ApproximateLSN(planets[k], home.value);
      assert planets[..k + 1][..k] == planets[..k];
      assert Divisor(planets[k], home.value) != 0;
      score := score + 20000 / ((3 + lsn) * (50 + planets[k].mining));
      k := k + 1;
    }
    assert planets[..k] == planets;
  }

  /** The planet's share of the score: 23..25 for home, else at most 83. */
  lemma ContributionBounds(p: TemplatePlanet, home: TemplatePlanet)
    requires SoundPlanet(p) && SoundPlanet(home) && home.special == 1
    ensures Divisor(p, home) > 0
    ensures 0 <= 20000 / Divisor(p, home) <= 83
    ensures p == home ==> 23 <= 20000 / Divisor(p, home) <= 25
  {
    var d := Divisor(p, home);
    var lsn := LSN(p, home);
    LSNIsEvenAndNonnegative(p, home);
    assert 3 * (50 + p.mining) <= d by { ProductMonotone(3, 3 + lsn, 50 + p.mining); }
    QuotientBetween(20000, d, 0, 83);
    if p == home {
      HomeSupportsItself(home);
      assert d == 3 * (50 + p.mining);
      QuotientBetween(20000, d, 23, 25);
    }
  }

  lemma {:induction false} ScoreSumBounds(ps: seq<TemplatePlanet>, home: TemplatePlanet, h: int)
    requires home.special == 1 && SoundPlanet(home)
    requires forall i :: 0 <= i < |ps| ==> SoundPlanet(ps[i])
    requires 0 <= h < |ps| ==> ps[h] == home
    ensures forall i :: 0 <= i < |ps| ==> Divisor(ps[i], home) != 0
    ensures 0 <= ScoreSum(ps, home) <= 83 * |ps|
    ensures 0 <= h < |ps| ==> 23 <= ScoreSum(ps, home) <= 25 + 83 * (|ps| - 1)
  {
    hide SoundPlanet, LSN;
    forall i | 0 <= i < |ps| ensures Divisor(ps[i], home) != 0 {
      ContributionBounds(ps[i], home);
    }
    if ps != [] {
      var n := |ps| - 1;
      ContributionBounds(ps[n], home);
      ScoreSumBounds(ps[..n], home, h);
    }
  }

  // ----- one attempt -----

  datatype HomeStarTemplate = HomeStarTemplate(numPlanets: int, planets: seq<TemplatePlanet>, viabilityScore: int)

  lemma AttemptIsScorable(t: Tape, n: int)
    requires 1 <= n <= 9
    ensures Scorable(PlanetsOn(t, n, 1, None, false).0)
  {
    hide SoundPlanet, PlanetsOn;
    var ps := PlanetsOn(t, n, 1, None, false).0;
    PlanetsAreSound(t, n, 1, None, false);
    var h := HomeIndex(ps);
    if h < |ps| {
      ScoreSumBounds(ps, ps[h], h);
    }
  }

  function AttemptOn(t: Tape, n: int): (r: (HomeStarTemplate, int, Tape))
    requires 1 <= n <= 9
  {
    var (ps, t1) := PlanetsOn(t, n, 1, None, false);
    AttemptIsScorable(t, n);
    (HomeStarTemplate(n, ps, Score(ps)), Score(ps), t1)
  }

  method GenerateHomeStarTemplateAttempt(rng: PRNG, numPlanets: int) returns (template: HomeStarTemplate, score: int)
    requires 1 <= numPlanets <= 9
    modifies rng
    ensures (template, score, rng.tape) == AttemptOn(old(rng.tape), numPlanets)
  {
    hide PlanetsOn, Score, Scorable;
    AttemptIsScorable(rng.tape, numPlanets);
    var planets := RollPlanets(rng, numPlanets);
    score := ComputeViabilityScore(planets);
    template := HomeStarTemplate(numPlanets, planets, score);
  }

  /** What every attempt comes to: sound, arranged planets, and a score that is
      positive, and then 23 to 25 + 83(n-1), exactly when it has a home. */
  ghost predicate SoundTemplate(tpl: HomeStarTemplate, n: int) {
    && tpl.numPlanets == n == |tpl.planets|
    && (forall i :: 0 <= i < n ==> SoundPlanet(tpl.planets[i]))
    && Arranged(tpl.planets, false)
    && (tpl.viabilityScore > 0 <==> exists i :: IsHome(tpl.planets, i))
    && (tpl.viabilityScore > 0 ==> 23 <= tpl.viabilityScore <= 25 + 83 * (n - 1))
    && tpl.viabilityScore >= 0
  }

  lemma AttemptIsSound(t: Tape, n: int)
    requires 1 <= n <= 9
    ensures var (tpl, score, rest) := AttemptOn(t, n);
            SoundTemplate(tpl, n) && score == tpl.viabilityScore
  {
    hide SoundPlanet, PlanetsOn;
    var ps := PlanetsOn(t, n, 1, None, false).0;
    PlanetsAreSound(t, n, 1, None, false);
    AttemptIsScorable(t, n);
    var h := HomeIndex(ps);
    if h < |ps| {
      ScoreSumBounds(ps, ps[h], h);
      assert !NoSpecial(ps);
    }
  }

  /** An attempt scores 0 exactly when every class that reaches the override is
      at least 12. */
  lemma ScoresZeroIffAllWarm(t: Tape, n: int)
    requires 1 <= n <= 9
    ensures AttemptOn(t, n).1 == 0 <==> AllWarm(t, n, 1, None)
  {
    hide SoundPlanet, PlanetsOn, AllWarm, NeverWarmer, GiantsOutside, Score;
    var tpl := AttemptOn(t, n).0;
    AttemptIsSound(t, n);
    NoHomeIffAllWarm(t, n, 1, None);
    if exists i :: IsHome(tpl.planets, i) {
      assert !NoSpecial(tpl.planets);
    }
  }

  function Sum(xs: seq<int>): (sum: int) {
    if xs == [] then 0 else xs[0] + Sum(xs[1..])
  }

  lemma {:induction false} SumLast(xs: seq<int>)
    requires xs != []
    ensures Sum(xs) == Sum(xs[..|xs| - 1]) + xs[|xs| - 1]
    decreases |xs|
  {
    if |xs| > 1 {
      SumLast(xs[1..]);
      assert xs[1..][..|xs| - 2] == xs[..|xs| - 1][1..];
    } else {
      assert xs[1..] == [] && xs[..0] == [];
    }
  }

  /** x is 20000 divided by 3 + the life support needed times 50 + the mining
      difficulty, rounded down. */
  ghost predicate IsShare(x: int, p: TemplatePlanet, home: TemplatePlanet) {
    var d := (3 + Needs(p, home)) * (50 + p.mining);
    d > 0 && x * d <= 20000 < x * d + d
  }

  ghost predicate AreShares(xs: seq<int>, ps: seq<TemplatePlanet>, home: TemplatePlanet) {
    |xs| == |ps| && forall i :: 0 <= i < |ps| ==> IsShare(xs[i], ps[i], home)
  }

  lemma ShareIs(p: TemplatePlanet, home: TemplatePlanet)
    requires SoundPlanet(p) && SoundPlanet(home) && home.special == 1
    ensures Divisor(p, home) > 0 && IsShare(20000 / Divisor(p, home), p, home)
  {
    hide LSN, Needs;
    ContributionBounds(p, home);
    LSNIsNeeds(p, home);
    var d := Divisor(p, home);
    assert 20000 == 20000 / d * d + 20000 % d;
  }

  lemma {:induction false} ScoreSumShares(ps: seq<TemplatePlanet>, home: TemplatePlanet) returns (xs: seq<int>)
    requires home.special == 1 && SoundPlanet(home)
    requires forall i :: 0 <= i < |ps| ==> SoundPlanet(ps[i])
    ensures forall i :: 0 <= i < |ps| ==> Divisor(ps[i], home) != 0
    ensures AreShares(xs, ps, home) && Sum(xs) == ScoreSum(ps, home)
  {
    hide SoundPlanet, Divisor, IsShare;
    forall i | 0 <= i < |ps| ensures Divisor(ps[i], home) != 0 {
      ShareIs(ps[i], home);
    }
    if ps == [] {
      xs := [];
    } else {
      var n := |ps| - 1;
      xs := ScoreSumShares(ps[..n], home);
      ShareIs(ps[n], home);
      xs := xs + [20000 / Divisor(ps[n], home)];
      SumLast(xs);
      assert xs[..n] == xs[..|xs| - 1];
    }
  }

  /** The score of an attempt with a home planet adds up the shares of all its
      planets. */
  lemma ScoreAddsShares(t: Tape, n: int, h: int)
    requires 1 <= n <= 9
    ensures var tpl := AttemptOn(t, n).0;
            IsHome(tpl.planets, h) ==>
              exists xs :: AreShares(xs, tpl.planets, tpl.planets[h]) && tpl.viabilityScore == Sum(xs)
  {
    hide SoundPlanet, PlanetsOn, ScoreSum, Divisor, AreShares;
    var tpl := AttemptOn(t, n).0;
    PlanetsAreSound(t, n, 1, None, false);
    if IsHome(tpl.planets, h) {
      var xs := ScoreSumShares(tpl.planets, tpl.planets[h]);
      assert HomeIndex(tpl.planets) == h;
    }
  }

  /** A home system has one home planet. */
  lemma HomeIsUnique(ps: seq<TemplatePlanet>, i: int, j: int)
    requires IsHome(ps, i) && IsHome(ps, j)
    ensures i == j
  {
  }
}
