/**
 Outcomes that happen although the documentation says they do not: each is one
 of those that are known to be rolled.
 */
module Witnesses {
  import opened Atmosphere
  import opened Bodies
  import opened GasMaps
  import opened Options
  import opened Outcomes
  import opened Prng
  import opened Reach
  import Driver
  import Generator
  import Templates
  import Viability

  /** The smallest rocky planet fits every orbit, with any class it can have. */
  lemma SmallFits(numPlanets: int, orbit: int, hot: int) returns (i: int)
    requires 1 <= orbit <= numPlanets <= 9 && 1 <= hot <= 18 && (Warmed(numPlanets, orbit) ==> hot >= 12)
    ensures Seeded(numPlanets, orbit, i) && DiameterCan(START_DIAMETER[i], 3)
    ensures TemperatureCan(START_TEMPERATURE[i], false, Warmed(numPlanets, orbit), hot)
  {
    i := SeedIndex(numPlanets, orbit);
    SeededIff(numPlanets, orbit, i);
  }

  // ----- templates without and with a home planet -----

  function WarmPlanet(): (p: Templates.TemplatePlanet) {
    Templates.TemplatePlanet(Rocky, 3, 15, 14, 0, 40, [], 0)
  }

  function HomePlanet(): (p: Templates.TemplatePlanet) {
    Templates.TemplatePlanet(Rocky, 12, 96, 10, 9, 210, [GasShare(N2, 89), GasShare(O2, 11)], 1)
  }

  lemma WarmFits(n: int, orbit: int, previous: Option<int>, consumed: bool)
    requires 1 <= orbit <= n <= 9 && (previous.Some? ==> previous.value >= 14)
    ensures TemplatePlanetCan(WarmPlanet(), n, orbit, previous, consumed)
  {
    hide TemperatureCan, DiameterCan, Seeded;
    var i := SmallFits(n, orbit, 14);
    assert TemplatePlanetAt(WarmPlanet(), i, Warmed(n, orbit), previous, consumed, 3, 370, 14, 14);
  }

  lemma HomeFits(n: int, orbit: int, previous: Option<int>)
    requires 1 <= orbit <= n <= 9 && !Warmed(n, orbit) && (previous.Some? ==> previous.value >= 11)
    ensures TemplatePlanetCan(HomePlanet(), n, orbit, previous, false)
  {
    hide TemperatureCan, DiameterCan, Seeded;
    var i := SmallFits(n, orbit, 11);
    assert EarthAirIs(HomePlanet().atmosphere, 0, 0, 11);
    assert TemplatePlanetAt(HomePlanet(), i, Warmed(n, orbit), previous, false, 3, 370, 11, 11);
  }

  function Warm(n: nat): (ps: seq<Templates.TemplatePlanet>)
    ensures |ps| == n && forall k :: 0 <= k < n ==> ps[k] == WarmPlanet()
  {
    seq(n, _ => WarmPlanet())
  }

  lemma WarmStands(ps: seq<Templates.TemplatePlanet>, n: int, k: int)
    requires 0 <= k < |ps| == n <= 9 && forall j :: 0 <= j <= k ==> ps[j] == WarmPlanet()
    ensures StandsAt(ps, n, 1, None, false, k)
  {
    hide TemplatePlanetCan;
    WarmFits(n, 1 + k, InsideOf(ps, k, None), false);
  }

  lemma WarmTape(n: int, rest: Tape) returns (t: Tape)
    requires 1 <= n <= 9
    ensures Templates.PlanetsOn(t, n, 1, None, false) == (Warm(n), rest)
    ensures Templates.NoSpecial(Warm(n))
  {
    hide StandsAt, Templates.PlanetsOn;
    forall k | 0 <= k < n ensures StandsAt(Warm(n), n, 1, None, false, k) {
      WarmStands(Warm(n), n, k);
    }
    t := PlanetsTape(Warm(n), n, 1, None, false, rest);
  }

  /** For every number of planets some attempt has no home planet. */
  lemma NoHomeHappens(n: int)
    requires 1 <= n <= 9
    ensures exists t :: Templates.NoSpecial(Templates.PlanetsOn(t, n, 1, None, false).0)
  {
    hide Templates.PlanetsOn, Templates.NoSpecial;
    var t := WarmTape(n, []);
  }

  /** Some attempt has one, exactly from three planets on: the two orbits of
      smaller systems are warmed. */
  lemma HomeHappensIff(n: int)
    requires 1 <= n <= 9
    ensures (exists t :: !Templates.NoSpecial(Templates.PlanetsOn(t, n, 1, None, false).0)) <==> n >= 3
  {
    hide Templates.PlanetsOn, Templates.NoSpecial;
    if n >= 3 {
      var t := HomeTape(n);
    } else {
      forall t ensures Templates.NoSpecial(Templates.PlanetsOn(t, n, 1, None, false).0) {
        WarmedHasNoHome(t, n, 1, None);
        Templates.NoHomeIffAllWarm(t, n, 1, None);
      }
    }
  }

  /** Warm planets, and a home planet at the last orbit. */
  lemma HomeTape(n: int) returns (t: Tape)
    requires 3 <= n <= 9
    ensures !Templates.NoSpecial(Templates.PlanetsOn(t, n, 1, None, false).0)
  {
    hide StandsAt, Templates.PlanetsOn, TemplatePlanetCan;
    var ps := Warm(n - 1) + [HomePlanet()];
    forall k | 0 <= k < n ensures StandsAt(ps, n, 1, None, false, k) {
      if k < n - 1 {
        WarmStands(ps, n, k);
      } else {
        LastStands(ps, n);
      }
    }
    t := PlanetsTape(ps, n, 1, None, false, []);
    assert ps[n - 1].special == 1;
  }

  lemma LastStands(ps: seq<Templates.TemplatePlanet>, n: int)
    requires 3 <= n == |ps| <= 9 && ps[n - 1] == HomePlanet()
    requires forall j :: 0 <= j < n - 1 ==> ps[j] == WarmPlanet()
    ensures StandsAt(ps, n, 1, None, false, n - 1)
  {
    hide TemplatePlanetCan;
    HomeFits(n, n, InsideOf(ps, n - 1, None));
  }

  lemma {:induction false} WarmedHasNoHome(t: Tape, n: int, orbit: int, previous: Option<int>)
    requires 1 <= orbit <= n + 1 <= 3 && (previous.Some? ==> previous.value >= 12)
    ensures Templates.AllWarm(t, n, orbit, previous)
    decreases n - orbit
  {
    hide Templates.BodyOn, Templates.TemplatePlanetOn;
    if orbit <= n {
      Templates.BodyIsSound(t, n, orbit, previous);
      var b := Templates.BodyOn(t, n, orbit, previous).0;
      WarmedHasNoHome(Templates.TemplatePlanetOn(t, n, orbit, previous, false).1, n, orbit + 1, Some(b.tc));
    }
  }

  // ----- stars -----

  function SmallPlanet(tc: int): (p: Generator.Planet) {
    Generator.Planet(0, 0, 0, Rocky, 3, 370, 1110, tc, 0, map[], 440)
  }

  lemma SmallPlanetFits(n: int, orbit: int, tc: int, previous: Option<int>)
    requires 1 <= orbit <= n <= 9 && 1 <= tc <= 18 && (Warmed(n, orbit) ==> tc >= 12)
    requires previous.Some? ==> previous.value >= tc
    ensures PlanetCan(SmallPlanet(tc), n, orbit, previous)
  {
    hide TemperatureCan, DiameterCan, Seeded;
    var i := SmallFits(n, orbit, tc);
    assert PlanetAt(SmallPlanet(tc), i, Warmed(n, orbit), previous, tc, 40, []);
  }

  /** A blue giant star can have any number of planets. */
  function BlueGiant(n: int): (star: Generator.Star) {
    Generator.Star(0, 0, Generator.Giant, Generator.Blue, 0, n)
  }

  lemma BlueGiantTape(n: int, ps: seq<Generator.Planet>, rest: Tape) returns (t: Tape)
    requires 1 <= n <= 9 && OrbitsCan(ps, n, 1, None)
    ensures Generator.StarOn(t) == (BlueGiant(n), ps, rest)
  {
    hide OrbitsCan, Generator.StarOn;
    assert SidesOf(Generator.Blue, 8) && CountCan(Generator.Giant, 8, n);
    t := StarTape(BlueGiant(n), ps, 3, rest);
  }

  function Small(n: nat, tc: int): (ps: seq<Generator.Planet>)
    ensures |ps| == n && forall k :: 0 <= k < n ==> ps[k] == SmallPlanet(tc)
  {
    seq(n, _ => SmallPlanet(tc))
  }

  lemma SmallStarTape(n: int, rest: Tape) returns (t: Tape)
    requires 1 <= n <= 9
    ensures Generator.StarOn(t) == (BlueGiant(n), Small(n, 14), rest)
  {
    hide PlanetCan, Generator.StarOn;
    var ps := Small(n, 14);
    forall k | 0 <= k < n ensures OrbitsAt(ps, n, 1, None, k) {
      SmallPlanetFits(n, 1 + k, 14, Inside(ps, k, None));
    }
    t := BlueGiantTape(n, ps, rest);
  }

  function ColdGiant(): (p: Generator.Planet) {
    Generator.Planet(0, 0, 0, GasGiant, 143, 60, 8580, 1, 11, MixOf([GasShare(1, 100)]), 440)
  }

  lemma ColdGiantFits()
    ensures PlanetCan(ColdGiant(), 4, 3, Some(1))
  {
    hide MixOf;
    assert Seeded(4, 3, 6) && START_DIAMETER[6] == 143;
    var mix := [GasShare(1, 100)];
    assert mix[..0] == [];
    assert PercentsOf(mix, mix);
    assert PickCan(mix, 1, 5, 1) && Lowest(1, 1);
    assert MixCan(mix, 1);
    assert PlanetAt(ColdGiant(), 6, Warmed(4, 3), Some(1), 3, 40, mix);
  }

  /** The documented 3..7 of gas giants fails on some star: two small planets of
      class 1, and a gas giant outside them. */
  lemma GiantCanBeCold()
    ensures exists t, i ::
              && 0 <= i < |Generator.StarOn(t).1|
              && Generator.StarOn(t).1[i].kind == GasGiant && Generator.StarOn(t).1[i].temperatureClass < 3
  {
    hide PlanetCan, Generator.StarOn, MixOf;
    var small := SmallPlanet(1);
    var ps := [small, small, ColdGiant(), small];
    SmallPlanetFits(4, 1, 1, None);
    SmallPlanetFits(4, 2, 1, Some(1));
    ColdGiantFits();
    SmallPlanetFits(4, 4, 1, Some(1));
    var t := BlueGiantTape(4, ps, []);
    assert Generator.StarOn(t).1[2] == ColdGiant();
  }

  // ----- a filled slot without a home planet -----

  ghost predicate Homeless(s: Driver.Slot) {
    s.template.Some? && Templates.NoSpecial(s.template.value.planets)
  }

  /** If the window takes score 0, a first candidate fills its slot with an
      attempt that has no home planet. */
  lemma HomelessFirst(window: Driver.ViabilityWindow, maxCandidateRolls: int, n: int) returns (t: Tape)
    requires window.Accepts(0) && 3 <= n <= 9
    ensures Homeless(Driver.TemplatesOn(t, window, maxCandidateRolls).0.slots[n].value)
  {
    hide Driver.Start, Driver.StepOn, Driver.DriveOn, Homeless, Generator.StarOn, Viability.AttemptOn;
    hide Templates.NoSpecial, Templates.PlanetsOn;
    var warm := WarmTape(n, []);
    HomelessAttempt(warm, n);
    t := SmallStarTape(n, warm);
    FirstTurn(t, warm, Driver.Start(), window, Driver.Budget(maxCandidateRolls), n);
  }

  lemma HomelessAttempt(t: Tape, n: int)
    requires 1 <= n <= 9 && Templates.NoSpecial(Templates.PlanetsOn(t, n, 1, None, false).0)
    ensures var (tpl, score, _) := Viability.AttemptOn(t, n);
            score == 0 && Templates.NoSpecial(tpl.planets)
  {
    hide Templates.AllWarm, Templates.NoSpecial, Templates.PlanetsOn;
    Templates.NoHomeIffAllWarm(t, n, 1, None);
    Viability.ScoresZeroIffAllWarm(t, n);
  }

  /** The slot is filled in the first turn and then stays. */
  lemma FirstTurn(t: Tape, warm: Tape, d: Driver.Drive, window: Driver.ViabilityWindow, budget: int, n: int)
    requires 3 <= n <= 9
    requires Driver.WellFormed(d) && d.filled == 0 && d.slots[n].value.template.None? && budget > 0
    requires Generator.StarOn(t).0.numPlanets == n && Generator.StarOn(t).2 == warm
    requires var (tpl, score, _) := Viability.AttemptOn(warm, n); score == 0 && Templates.NoSpecial(tpl.planets)
    requires window.Accepts(0)
    ensures Homeless(Driver.DriveOn(t, d, window, budget).0.slots[n].value)
  {
    hide Generator.StarOn, Viability.AttemptOn, Templates.NoSpecial;
    var (d1, rest) := Driver.StepOn(t, d, window);
    assert Homeless(d1.slots[n].value);
    Driver.FilledStays(rest, d1, window, budget - 1, n);
  }

  /** A slot can be filled without a home planet exactly when the window takes
      score 0, whatever the budget. */
  lemma HomelessSlotIff(window: Driver.ViabilityWindow, maxCandidateRolls: int, n: int)
    requires 3 <= n <= 9
    ensures (exists t :: Homeless(Driver.TemplatesOn(t, window, maxCandidateRolls).0.slots[n].value))
       <==> window.Accepts(0)
  {
    hide Driver.TemplatesOn;
    if window.Accepts(0) {
      var t := HomelessFirst(window, maxCandidateRolls, n);
    } else {
      forall t ensures !Homeless(Driver.TemplatesOn(t, window, maxCandidateRolls).0.slots[n].value) {
        Driver.FilledSlotHasOneHome(t, window, maxCandidateRolls, n);
      }
    }
  }
}
