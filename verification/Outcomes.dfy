/**
 Which stars, planets and templates the generators can come up with: exactly the
 ones described here, by ranges and by what depends on what, without a die.
 */
module Outcomes {
  import opened Arithmetic
  import opened Atmosphere
  import opened Bodies
  import opened GasMaps
  import opened Options
  import opened Prng
  import opened Reach
  import Generator
  import Templates

  /** The seed table entry of an orbit: every other one in small systems, spread
      over all nine in larger ones. */
  predicate Seeded(numPlanets: int, orbit: int, i: int) {
    && 1 <= i <= 9
    && if numPlanets <= 3 then i == 2 * orbit + 1
       else i * numPlanets <= 9 * orbit < i * numPlanets + numPlanets
  }

  lemma SeededIff(numPlanets: int, orbit: int, i: int)
    requires 1 <= orbit <= numPlanets <= 9
    ensures Seeded(numPlanets, orbit, i) <==> i == SeedIndex(numPlanets, orbit)
  {
    if numPlanets > 3 {
      QuotientIff(9 * orbit, numPlanets, i);
    }
  }

  /** A class capped by that of the planet inside. */
  predicate CappedBy(previous: Option<int>, hot: int, tc: int) {
    tc <= hot && (tc == hot || previous == Some(tc)) && (previous.Some? ==> tc <= previous.value)
  }

  /** How large and how warm the planets at nine orbits can be. */
  lemma NineOrbits(orbit: int, v: int)
    requires 1 <= orbit <= 9
    ensures Seeded(9, orbit, orbit)
    ensures DiameterCan(START_DIAMETER[orbit], v)
       <==> 3 <= v <= [13, 24, 25, 15, 40, 283, 241, 99, 97][orbit - 1]
    ensures TemperatureCan(START_TEMPERATURE[orbit], false, false, v)
       <==> 1 <= v <= [30, 30, 29, 27, 26, 24, 23, 23, 21][orbit - 1]
  {
  }

  /** The warmed orbits start too small for a gas giant. */
  lemma WarmedStaysRocky(numPlanets: int, orbit: int, i: int, diameter: int)
    requires Seeded(numPlanets, orbit, i) && 1 <= orbit && Warmed(numPlanets, orbit)
    requires DiameterCan(START_DIAMETER[i], diameter)
    ensures diameter <= 40
  {
    assert i == 3 || i == 5;
  }

  // ----- planets of a cluster -----

  /** Mining difficulty before scaling. */
  predicate ClusterMiningCan(diameter: int, v: int) {
    40 <= v <= 500 && v <= 5 * diameter + 60
  }

  lemma {:induction false} ClusterMiningRange(t: Tape, diameter: int)
    requires diameter >= 1
    ensures ClusterMiningCan(diameter, Generator.MiningOn(t, diameter).0)
    decreases |t|
  {
    hide Generator.MiningTryOn, RollOn;
    var (v, t1) := Generator.MiningTryOn(t, diameter);
    ClusterTryRange(t, diameter);
    if !(40 <= v <= 500) {
      Generator.CalmMiningAccepted(diameter);
      ClusterMiningRange(t1, diameter);
    }
  }

  lemma ClusterTryRange(t: Tape, diameter: int)
    requires diameter >= 1
    ensures Generator.MiningTryOn(t, diameter).0 <= 5 * diameter + 60
  {
    var (a, t1) := RollOn(t, 1, 3);
    var (b, t2) := RollOn(t1, 1, 3);
    var (c, t3) := RollOn(t2, 1, 4);
    var (d, t4) := RollOn(t3, 1, diameter);
    ProductMonotone(a + b - c, 5, d);
  }

  lemma ClusterMiningTape(diameter: int, v: int, rest: Tape) returns (t: Tape)
    requires diameter >= 1 && ClusterMiningCan(diameter, v)
    ensures Generator.MiningOn(t, diameter) == (v, rest)
  {
    hide RollOn;
    var d := if v <= 60 then 1 else (v - 60 + 4) / 5;
    var left := if v <= 60 then v else v - 5 * d;
    var e, f := TwoRolls(30, left);
    t := RollTape(1, 30, f, rest);
    t := RollTape(1, 30, e, t);
    t := RollTape(1, diameter, d, t);
    t := RollTape(1, 4, if v <= 60 then 2 else 1, t);
    t := RollTape(1, 3, if v <= 60 then 1 else 3, t);
    t := RollTape(1, 3, if v <= 60 then 1 else 3, t);
    assert Generator.MiningTryOn(t, diameter) == (v, rest);
  }

  /** The planet at a seed: `hot` is its class before ordering. */
  ghost predicate PlanetAt(p: Generator.Planet, i: int, warm: bool, previous: Option<int>, hot: int, mining: int,
                           mix: seq<GasShare>)
  {
    var giant := p.diameter > 40;
    && 1 <= i <= 9 && p.id == p.starId == p.orbit == 0
    && DiameterCan(START_DIAMETER[i], p.diameter)
    && p.kind == (if giant then GasGiant else Rocky)
    && DensityCan(giant, p.density) && p.gravity == p.density * p.diameter
    && TemperatureCan(START_TEMPERATURE[i], giant, warm, hot) && CappedBy(previous, hot, p.temperatureClass)
    && PressureCan(p.gravity / 720, giant, p.pressureClass)
    && (if p.pressureClass == 0 then p.gases == map[] else MixCan(mix, p.temperatureClass) && p.gases == MixOf(mix))
    && ClusterMiningCan(p.diameter, mining) && p.mining == 11 * mining
  }

  ghost predicate PlanetCan(p: Generator.Planet, numPlanets: int, orbit: int, previous: Option<int>) {
    exists i, hot, mining, mix ::
      Seeded(numPlanets, orbit, i) && PlanetAt(p, i, Warmed(numPlanets, orbit), previous, hot, mining, mix)
  }

  function ClassOf(previous: Option<Generator.Planet>): (tc: Option<int>) {
    if previous.None? then None else Some(previous.value.temperatureClass)
  }

  lemma GravityNonnegative(density: int, diameter: int)
    requires density >= 0 && diameter >= 0
    ensures density * diameter >= 0
  {
  }

  lemma ClusterMixRange(t: Tape, tc: int)
    ensures MixCan(Generator.MixListOn(t, tc).0, tc)
  {
    hide PickOn, Normalized, DiceOn;
    var (dice, t1) := DiceOn(t, 2, 4);
    PickRange(t1, FirstGas(tc), dice / 2, tc, true);
    MixRange(PickOn(t1, FirstGas(tc), dice / 2, tc, true).0, tc);
  }

  lemma ClusterMixTape(mix: seq<GasShare>, tc: int, rest: Tape) returns (t: Tape)
    requires MixCan(mix, tc)
    ensures Generator.MixListOn(t, tc) == (mix, rest)
  {
    hide PickOn, Normalized, DiceOn;
    var s := MixPick(mix, tc);
    t := PickTape(s, FirstGas(tc), 4, tc, true, rest);
    t := DiceTape(2, 4, 8, t);
  }

  lemma PlanetRange(t: Tape, numPlanets: int, orbit: int, previous: Option<Generator.Planet>)
    requires 1 <= orbit <= numPlanets <= 9
    ensures PlanetCan(Generator.PlanetOn(t, numPlanets, orbit, previous).0, numPlanets, orbit, ClassOf(previous))
  {
    hide DiameterOn, DensityOn, TemperatureOn, PressureOn, Generator.MixListOn, Generator.MiningOn;
    hide TemperatureCan, PressureCan, MixCan, DiameterCan, ClusterMiningCan, MixOf;
    var i := SeedIndex(numPlanets, orbit);
    var warm := Warmed(numPlanets, orbit);
    SeededIff(numPlanets, orbit, i);
    StartsNonnegative(i);
    var (diameter, t1) := DiameterOn(t, START_DIAMETER[i]);
    DiameterRange(t, START_DIAMETER[i]);
    var giant := diameter > 40;
    if warm {
      WarmedStaysRocky(numPlanets, orbit, i, diameter);
    }
    var (density, t2) := DensityOn(t1, giant);
    GravityNonnegative(density, diameter);
    var (hot, t3) := TemperatureOn(t2, START_TEMPERATURE[i], giant, 2, warm);
    TemperatureRange(t2, START_TEMPERATURE[i], giant, 2, warm);
    var tc := Generator.Cooled(previous, hot);
    PressureRange(t3, density * diameter / 720, giant);
    var (pressure, t4) := PressureOn(t3, density * diameter / 720, giant);
    ClusterMixRange(t4, tc);
    var (mix, t5) := if pressure > 0 then Generator.MixListOn(t4, tc) else ([], t4);
    ClusterMiningRange(t5, diameter);
    var mining := Generator.MiningOn(t5, diameter).0;
    assert MixOf([]) == map[] by { EmptyMix(); }
    assert PlanetAt(Generator.PlanetOn(t, numPlanets, orbit, previous).0, i, warm, ClassOf(previous), hot, mining, mix);
  }

  lemma EmptyMix()
    ensures MixOf([]) == map[]
  {
  }

  lemma StartsNonnegative(i: int)
    requires 1 <= i <= 9
    ensures START_DIAMETER[i] >= 0 && START_TEMPERATURE[i] >= 0
  {
  }

  lemma CappedIff(previous: Option<Generator.Planet>, hot: int, tc: int)
    ensures CappedBy(ClassOf(previous), hot, tc) <==> tc == Generator.Cooled(previous, hot)
  {
  }

  /** The pressure, gases and mining difficulty of a planet, as PlanetOn rolls them. */
  lemma AirTape(p: Generator.Planet, mining: int, mix: seq<GasShare>, rest: Tape) returns (t: Tape)
    requires p.diameter >= 1 && p.gravity >= 0
    requires PressureCan(p.gravity / 720, p.diameter > 40, p.pressureClass)
    requires if p.pressureClass == 0 then p.gases == map[] else MixCan(mix, p.temperatureClass) && p.gases == MixOf(mix)
    requires ClusterMiningCan(p.diameter, mining)
    ensures var (pressure, t4) := PressureOn(t, p.gravity / 720, p.diameter > 40);
            var (gases, t5) := if pressure > 0 then Generator.MixListOn(t4, p.temperatureClass) else ([], t4);
            && pressure == p.pressureClass && MixOf(gases) == p.gases
            && Generator.MiningOn(t5, p.diameter) == (mining, rest)
  {
    hide PressureOn, Generator.MixListOn, Generator.MiningOn, MixCan, MixOf, ClusterMiningCan;
    PressureNonnegative(p.gravity / 720, p.diameter > 40, p.pressureClass);
    EmptyMix();
    t := ClusterMiningTape(p.diameter, mining, rest);
    if p.pressureClass > 0 {
      t := ClusterMixTape(mix, p.temperatureClass, t);
    }
    t := PressureTape(p.gravity / 720, p.diameter > 40, p.pressureClass, t);
  }

  lemma PlanetTape(p: Generator.Planet, numPlanets: int, orbit: int, previous: Option<Generator.Planet>, rest: Tape)
    returns (t: Tape)
    requires 1 <= orbit <= numPlanets <= 9 && PlanetCan(p, numPlanets, orbit, ClassOf(previous))
    ensures Generator.PlanetOn(t, numPlanets, orbit, previous) == (p, rest)
  {
    hide DiameterOn, DensityOn, TemperatureOn, PressureOn, Generator.MixListOn, Generator.MiningOn;
    hide TemperatureCan, PressureCan, MixCan, ClusterMiningCan, MixOf, Seeded, CappedBy, Generator.Cooled, ClassOf;
    var warm := Warmed(numPlanets, orbit);
    var i, hot, mining, mix :|
      Seeded(numPlanets, orbit, i) && PlanetAt(p, i, warm, ClassOf(previous), hot, mining, mix);
    SeededIff(numPlanets, orbit, i);
    StartsNonnegative(i);
    CappedIff(previous, hot, p.temperatureClass);
    var giant := p.diameter > 40;
    if warm {
      WarmedStaysRocky(numPlanets, orbit, i, p.diameter);
    }
    GravityNonnegative(p.density, p.diameter);
    t := AirTape(p, mining, mix, rest);
    t := TemperatureTape(START_TEMPERATURE[i], giant, 2, warm, hot, t);
    t := DensityTape(giant, p.density, t);
    t := DiameterTape(START_DIAMETER[i], p.diameter, t);
  }

  lemma PressureNonnegative(start: int, giant: bool, v: int)
    requires PressureCan(start, giant, v)
    ensures v >= 0
  {
  }

  /** Every planet a cluster can hold at an orbit, and no other. */
  lemma PlanetIff(p: Generator.Planet, numPlanets: int, orbit: int, previous: Option<Generator.Planet>)
    requires 1 <= orbit <= numPlanets <= 9
    ensures (exists t :: Generator.PlanetOn(t, numPlanets, orbit, previous).0 == p)
       <==> PlanetCan(p, numPlanets, orbit, ClassOf(previous))
  {
    hide Generator.PlanetOn, PlanetCan;
    if PlanetCan(p, numPlanets, orbit, ClassOf(previous)) {
      var t := PlanetTape(p, numPlanets, orbit, previous, []);
    }
    forall t | Generator.PlanetOn(t, numPlanets, orbit, previous).0 == p
      ensures PlanetCan(p, numPlanets, orbit, ClassOf(previous))
    {
      PlanetRange(t, numPlanets, orbit, previous);
    }
  }

  // ----- stars -----

  /** The class inside planet k. */
  function Inside(ps: seq<Generator.Planet>, k: int, previous: Option<int>): (tc: Option<int>)
    requires 0 <= k <= |ps|
  {
    if k == 0 then previous else Some(ps[k - 1].temperatureClass)
  }

  /** Planet k is possible next to the one inside it. */
  ghost predicate OrbitsAt(ps: seq<Generator.Planet>, numPlanets: int, orbit: int, previous: Option<int>, k: int)
    requires 0 <= k < |ps|
  {
    PlanetCan(ps[k], numPlanets, orbit + k, Inside(ps, k, previous))
  }

  /** The planets from `orbit` outward. */
  ghost predicate OrbitsCan(ps: seq<Generator.Planet>, numPlanets: int, orbit: int, previous: Option<int>) {
    |ps| == numPlanets + 1 - orbit && forall k :: 0 <= k < |ps| ==> OrbitsAt(ps, numPlanets, orbit, previous, k)
  }

  lemma OrbitsFirst(p: Generator.Planet, rest: seq<Generator.Planet>, numPlanets: int, orbit: int, previous: Option<int>)
    ensures OrbitsAt([p] + rest, numPlanets, orbit, previous, 0) <==> PlanetCan(p, numPlanets, orbit, previous)
  {
    hide PlanetCan;
  }

  lemma OrbitsNext(p: Generator.Planet, rest: seq<Generator.Planet>, numPlanets: int, orbit: int, previous: Option<int>,
                   k: int)
    requires 0 <= k < |rest|
    ensures OrbitsAt([p] + rest, numPlanets, orbit, previous, k + 1)
       <==> OrbitsAt(rest, numPlanets, orbit + 1, Some(p.temperatureClass), k)
  {
    hide PlanetCan;
    var ps := [p] + rest;
    assert orbit + (k + 1) == orbit + 1 + k && ps[k + 1] == rest[k];
    assert Inside(ps, k + 1, previous) == Inside(rest, k, Some(p.temperatureClass));
  }

  lemma OrbitsCons(p: Generator.Planet, rest: seq<Generator.Planet>, numPlanets: int, orbit: int, previous: Option<int>)
    ensures OrbitsCan([p] + rest, numPlanets, orbit, previous)
       <==> PlanetCan(p, numPlanets, orbit, previous) && OrbitsCan(rest, numPlanets, orbit + 1, Some(p.temperatureClass))
  {
    hide PlanetCan, OrbitsAt;
    var ps := [p] + rest;
    var next, tc := orbit + 1, Some(p.temperatureClass);
    OrbitsFirst(p, rest, numPlanets, orbit, previous);
    forall k | 0 <= k < |rest|
      ensures OrbitsAt(ps, numPlanets, orbit, previous, k + 1) <==> OrbitsAt(rest, numPlanets, next, tc, k)
    {
      OrbitsNext(p, rest, numPlanets, orbit, previous, k);
    }
    if OrbitsCan(rest, numPlanets, next, tc) {
      forall k | 1 <= k < |ps| ensures OrbitsAt(ps, numPlanets, orbit, previous, k) {
        assert OrbitsAt(rest, numPlanets, next, tc, k - 1);
      }
    }
  }

  lemma {:induction false} OrbitsRange(t: Tape, numPlanets: int, orbit: int, previous: Option<Generator.Planet>)
    requires 1 <= orbit <= numPlanets + 1 <= 10
    ensures OrbitsCan(Generator.OrbitsOn(t, numPlanets, orbit, previous).0, numPlanets, orbit, ClassOf(previous))
    decreases numPlanets - orbit
  {
    hide Generator.PlanetOn, PlanetCan;
    if orbit <= numPlanets {
      var (p, t1) := Generator.PlanetOn(t, numPlanets, orbit, previous);
      PlanetRange(t, numPlanets, orbit, previous);
      OrbitsRange(t1, numPlanets, orbit + 1, Some(p));
      OrbitsCons(p, Generator.OrbitsOn(t1, numPlanets, orbit + 1, Some(p)).0, numPlanets, orbit, ClassOf(previous));
    }
  }

  lemma {:induction false} OrbitsTape(ps: seq<Generator.Planet>, numPlanets: int, orbit: int,
                                      previous: Option<Generator.Planet>, rest: Tape) returns (t: Tape)
    requires 1 <= orbit <= numPlanets + 1 <= 10 && OrbitsCan(ps, numPlanets, orbit, ClassOf(previous))
    ensures Generator.OrbitsOn(t, numPlanets, orbit, previous) == (ps, rest)
    decreases numPlanets - orbit
  {
    hide Generator.PlanetOn, PlanetCan;
    if orbit > numPlanets {
      t := rest;
    } else {
      assert ps == [ps[0]] + ps[1..];
      OrbitsCons(ps[0], ps[1..], numPlanets, orbit, ClassOf(previous));
      t := OrbitsTape(ps[1..], numPlanets, orbit + 1, Some(ps[0]), rest);
      t := PlanetTape(ps[0], numPlanets, orbit, previous, t);
    }
  }

  /** A bluer star has larger dice, a giant one more and a dwarf one less: their
      sum less two, brought into 1..9 by steps of at most 2 up and 3 down. */
  predicate CountCan(kind: Generator.StarKind, sides: int, n: int) {
    var dice := if kind == Generator.Dwarf then 1 else if kind == Generator.Giant then 3 else 2;
    && 1 <= n <= 9
    && (dice <= n + 2 <= dice * sides || (dice < 3 && n <= 2) || (dice * sides > 11 && n >= 7))
  }

  /** The seven colors from blue, whose dice have eight sides, to red, with two. */
  predicate SidesOf(color: Generator.StarColor, sides: int) {
    2 <= sides <= 8
    && [Generator.Blue, Generator.BlueWhite, Generator.White, Generator.YellowWhite,
        Generator.Yellow, Generator.Orange, Generator.Red][8 - sides] == color
  }

  lemma SidesOfIff(color: Generator.StarColor, sides: int)
    ensures SidesOf(color, sides) <==> sides == Generator.SizeOfDie(color)
  {
  }

  lemma CountRange(t: Tape, kind: Generator.StarKind, color: Generator.StarColor)
    ensures CountCan(kind, Generator.SizeOfDie(color), Generator.NumPlanetsOn(t, kind, color).0)
  {
    hide DiceOn, RaiseOn, LowerOn;
  }

  lemma CountTape(kind: Generator.StarKind, color: Generator.StarColor, n: int, rest: Tape) returns (t: Tape)
    requires CountCan(kind, Generator.SizeOfDie(color), n)
    ensures Generator.NumPlanetsOn(t, kind, color) == (n, rest)
  {
    hide DiceOn, RollOn;
    var dice: nat, sides := Generator.NumberOfRolls(kind), Generator.SizeOfDie(color);
    if dice <= n + 2 <= dice * sides {
      t := DiceTape(dice, sides, n + 2, rest);
    } else if dice < 3 && n <= 2 {
      t := RollTape(1, 2, n, rest);
      t := DiceTape(dice, sides, 2, t);
    } else {
      t := RollTape(1, 3, 10 - n, rest);
      t := DiceTape(dice, sides, 12, t);
    }
  }

  ghost predicate StarCan(star: Generator.Star, ps: seq<Generator.Planet>) {
    && star.id == star.systemId == 0 && 0 <= star.size <= 9
    && (exists sides :: SidesOf(star.color, sides) && CountCan(star.kind, sides, star.numPlanets))
    && OrbitsCan(ps, star.numPlanets, 1, None)
  }

  lemma StarRange(t: Tape)
    ensures StarCan(Generator.StarOn(t).0, Generator.StarOn(t).1)
  {
    hide Generator.OrbitsOn, Generator.NumPlanetsOn, OrbitsCan, CountCan;
    var (k, t1) := RollOn(t, 1, 10);
    var (c, t2) := RollOn(t1, 1, 7);
    var (d10, t3) := DiceOn(t2, 1, 10);
    var kind, color := Generator.KindOf(k), Generator.ColorOf(c);
    var (n, t4) := Generator.NumPlanetsOn(t3, kind, color);
    CountRange(t3, kind, color);
    SidesOfIff(color, Generator.SizeOfDie(color));
    OrbitsRange(t4, n, 1, None);
  }

  /** The rolls that give a kind: 1 a dwarf, 2 a degenerate, 3 a giant. */
  predicate KindRoll(k: int, kind: Generator.StarKind) {
    1 <= k <= 10 && (kind == Generator.Dwarf <==> k == 1) && (kind == Generator.Degenerate <==> k == 2)
    && (kind == Generator.Giant <==> k == 3)
  }

  lemma StarTape(star: Generator.Star, ps: seq<Generator.Planet>, k: int, rest: Tape) returns (t: Tape)
    requires StarCan(star, ps) && KindRoll(k, star.kind)
    ensures Generator.StarOn(t) == (star, ps, rest)
  {
    hide Generator.OrbitsOn, Generator.NumPlanetsOn, OrbitsCan, CountCan, DiceOn;
    var sides :| SidesOf(star.color, sides) && CountCan(star.kind, sides, star.numPlanets);
    SidesOfIff(star.color, sides);
    CountInRange(star.kind, sides, star.numPlanets);
    t := OrbitsTape(ps, star.numPlanets, 1, None, rest);
    t := CountTape(star.kind, star.color, star.numPlanets, t);
    t := DiceTape(1, 10, star.size + 1, t);
    t := RollTape(1, 7, 9 - sides, t);
    assert Generator.ColorOf(9 - sides) == star.color;
    t := RollTape(1, 10, k, t);
    assert Generator.KindOf(k) == star.kind;
  }

  lemma CountInRange(kind: Generator.StarKind, sides: int, n: int)
    requires CountCan(kind, sides, n)
    ensures 1 <= n <= 9
  {
  }

  /** Every star with its planets that can be rolled, and no other. */
  lemma StarIff(star: Generator.Star, ps: seq<Generator.Planet>)
    ensures (exists t :: Generator.StarOn(t).0 == star && Generator.StarOn(t).1 == ps) <==> StarCan(star, ps)
  {
    hide Generator.StarOn, StarCan;
    if StarCan(star, ps) {
      var k := if star.kind == Generator.Dwarf then 1 else if star.kind == Generator.Degenerate then 2
        else if star.kind == Generator.Giant then 3 else 4;
      var t := StarTape(star, ps, k, []);
    }
    forall t | Generator.StarOn(t).0 == star && Generator.StarOn(t).1 == ps ensures StarCan(star, ps) {
      StarRange(t);
    }
  }

  /** The first two rolls decide kind and color, and only they do. */
  lemma StarKindAndColor(k: int, c: int, rest: Tape)
    requires 1 <= k <= 10 && 1 <= c <= 7
    ensures var star := Generator.StarOn([k - 1] + ([c - 1] + rest)).0;
            KindRoll(k, star.kind) && SidesOf(star.color, 9 - c)
  {
    hide Generator.OrbitsOn, Generator.NumPlanetsOn, DiceOn;
    RollReaches(1, 10, k, [c - 1] + rest);
    RollReaches(1, 7, c, rest);
  }

  // ----- planets of a template -----

  predicate TemplateMiningCan(diameter: int, v: int) {
    30 <= v <= 1000 && v <= 8 * diameter + 40
  }

  lemma {:induction false} TemplateMiningRange(t: Tape, diameter: int)
    requires diameter >= 1
    ensures TemplateMiningCan(diameter, Templates.MiningOn(t, diameter).0)
    decreases |t|
  {
    hide Templates.MiningTryOn, RollOn;
    var (v, t1) := Templates.MiningTryOn(t, diameter);
    TemplateTryRange(t, diameter);
    if !(30 <= v <= 1000) {
      Templates.CalmMiningAccepted(diameter);
      TemplateMiningRange(t1, diameter);
    }
  }

  lemma TemplateTryRange(t: Tape, diameter: int)
    requires diameter >= 1
    ensures Templates.MiningTryOn(t, diameter).0 <= 8 * diameter + 40
  {
    var (a, t1) := RollOn(t, 1, 3);
    var (b, t2) := RollOn(t1, 1, 3);
    var (c, t3) := RollOn(t2, 1, 3);
    var (d, t4) := RollOn(t3, 1, 4);
    var (e, t5) := RollOn(t4, 1, diameter);
    ProductMonotone(a + b + c - d, 8, e);
  }

  lemma TemplateMiningTape(diameter: int, v: int, rest: Tape) returns (t: Tape)
    requires diameter >= 1 && TemplateMiningCan(diameter, v)
    ensures Templates.MiningOn(t, diameter) == (v, rest)
  {
    hide RollOn;
    var e := if v <= 40 then 1 else (v - 40 + 7) / 8;
    var left := if v <= 40 then v else v - 8 * e;
    var f, g := TwoRolls(20, left);
    t := RollTape(1, 20, g, rest);
    t := RollTape(1, 20, f, t);
    t := RollTape(1, diameter, e, t);
    t := RollTape(1, 4, if v <= 40 then 3 else 1, t);
    t := RollTape(1, 3, if v <= 40 then 1 else 3, t);
    t := RollTape(1, 3, if v <= 40 then 1 else 3, t);
    t := RollTape(1, 3, if v <= 40 then 1 else 3, t);
    assert Templates.MiningTryOn(t, diameter) == (v, rest);
  }

  lemma TemplateMixRange(t: Tape, tc: int)
    ensures MixCan(Templates.OtherAirOn(t, tc).0, tc)
  {
    hide PickOn, Normalized;
    var (a, t1) := RollOn(t, 1, 4);
    var (b, t2) := RollOn(t1, 1, 4);
    PickRange(t2, FirstGas(tc), (a + b) / 2, tc, false);
    MixRange(PickOn(t2, FirstGas(tc), (a + b) / 2, tc, false).0, tc);
  }

  lemma TemplateMixTape(mix: seq<GasShare>, tc: int, rest: Tape) returns (t: Tape)
    requires MixCan(mix, tc)
    ensures Templates.OtherAirOn(t, tc) == (mix, rest)
  {
    hide PickOn, Normalized, RollOn;
    var s := MixPick(mix, tc);
    t := PickTape(s, FirstGas(tc), 4, tc, false, rest);
    t := RollTape(1, 4, 4, t);
    t := RollTape(1, 4, 4, t);
  }

  /** A gas that may be missing. */
  function Perhaps(gas: Gas, percent: int): (s: seq<GasShare>) {
    if percent == 0 then [] else [GasShare(gas, percent)]
  }

  /** Up to 30 percent of ammonia and of carbon dioxide, 11 to 30 of oxygen, and
      nitrogen for the rest. */
  predicate EarthAirIs(air: seq<GasShare>, nh3: int, co2: int, o2: int) {
    && 0 <= nh3 <= 30 && 0 <= co2 <= 30 && 11 <= o2 <= 30
    && air == Perhaps(NH3, nh3) + [GasShare(N2, 100 - nh3 - co2 - o2)] + Perhaps(CO2, co2) + [GasShare(O2, o2)]
  }

  lemma PerhapsRange(t: Tape, gas: Gas) returns (pct: int)
    ensures 0 <= pct <= 30 && Templates.MaybeGasOn(t, gas).0 == Perhaps(gas, pct) && Total(Perhaps(gas, pct)) == pct
  {
    var s := Templates.MaybeGasOn(t, gas).0;
    pct := if s == [] then 0 else s[0].percent;
    assert s == Perhaps(gas, pct);
    PerhapsTotal(gas, pct);
  }

  lemma PerhapsTotal(gas: Gas, pct: int)
    ensures Total(Perhaps(gas, pct)) == pct
  {
    if pct != 0 {
      assert Perhaps(gas, pct)[..0] == [];
    }
  }

  lemma PerhapsTape(gas: Gas, pct: int, rest: Tape) returns (t: Tape)
    requires 0 <= pct <= 30
    ensures Templates.MaybeGasOn(t, gas) == (Perhaps(gas, pct), rest)
  {
    hide RollOn;
    if pct == 0 {
      t := RollTape(1, 3, 3, rest);
    } else {
      t := RollTape(1, 30, pct, rest);
      t := RollTape(1, 3, 1, t);
    }
  }

  lemma EarthAirRange(t: Tape) returns (nh3: int, co2: int, o2: int)
    ensures EarthAirIs(Templates.EarthAirOn(t).0, nh3, co2, o2)
  {
    hide Templates.MaybeGasOn, Perhaps, Total;
    nh3 := PerhapsRange(t, NH3);
    var t1 := Templates.MaybeGasOn(t, NH3).1;
    co2 := PerhapsRange(t1, CO2);
    var t2 := Templates.MaybeGasOn(t1, CO2).1;
    o2 := RollOn(t2, 1, 20).0 + 10;
  }

  lemma EarthAirTape(air: seq<GasShare>, nh3: int, co2: int, o2: int, rest: Tape) returns (t: Tape)
    requires EarthAirIs(air, nh3, co2, o2)
    ensures Templates.EarthAirOn(t) == (air, rest)
  {
    hide Templates.MaybeGasOn, Perhaps, Total, RollOn;
    t := RollTape(1, 20, o2 - 10, rest);
    t := PerhapsTape(CO2, co2, t);
    t := PerhapsTape(NH3, nh3, t);
    PerhapsTotal(CO2, co2);
    PerhapsTotal(NH3, nh3);
  }

  /** An earth-like planet. */
  ghost predicate EarthLikeCan(p: Templates.TemplatePlanet) {
    && p.kind == Rocky && p.special == 1
    && 12 <= p.diameter <= 14 && 96 <= p.gravity <= 120
    && 10 <= p.temperatureClass <= 12 && 9 <= p.pressureClass <= 11 && 210 <= p.mining <= 230
    && exists nh3, co2, o2 :: EarthAirIs(p.atmosphere, nh3, co2, o2)
  }

  lemma EarthLikeRange(t: Tape)
    ensures EarthLikeCan(Templates.EarthLikeOn(t).0)
  {
    hide Templates.EarthAirOn, EarthAirIs;
    var (a, t1) := RollOn(t, 1, 3);
    var (b, t2) := RollOn(t1, 1, 11);
    var (c, t3) := RollOn(t2, 1, 11);
    var (d, t4) := RollOn(t3, 1, 5);
    var (e, t5) := RollOn(t4, 1, 3);
    var (f, t6) := RollOn(t5, 1, 3);
    var (g, t7) := RollOn(t6, 1, 11);
    var (h, t8) := RollOn(t7, 1, 11);
    var nh3, co2, o2 := EarthAirRange(t8);
  }

  lemma EarthLikeTape(p: Templates.TemplatePlanet, rest: Tape) returns (t: Tape)
    requires EarthLikeCan(p)
    ensures Templates.EarthLikeOn(t) == (p, rest)
  {
    hide Templates.EarthAirOn, EarthAirIs, RollOn;
    var nh3, co2, o2 :| EarthAirIs(p.atmosphere, nh3, co2, o2);
    t := EarthAirTape(p.atmosphere, nh3, co2, o2, rest);
    var g, h := TwoRolls(11, p.mining - 208);
    t := RollTape(1, 11, h, t);
    t := RollTape(1, 11, g, t);
    t := RollTape(1, 3, p.pressureClass - 8, t);
    t := RollTape(1, 3, p.temperatureClass - 9, t);
    var d := if p.gravity <= 98 then 1 else if p.gravity >= 116 then 5 else 3;
    var b, c := TwoRolls(11, p.gravity - 93 - d);
    t := RollTape(1, 5, d, t);
    t := RollTape(1, 11, c, t);
    t := RollTape(1, 11, b, t);
    t := RollTape(1, 3, p.diameter - 11, t);
  }

  /** Any other planet, given its body. */
  ghost predicate OrdinaryCan(p: Templates.TemplatePlanet, diameter: int, gravity: int, tc: int) {
    var giant := diameter > 40;
    && p.kind == (if giant then GasGiant else Rocky) && p.special == 0
    && p.diameter == diameter && p.gravity == gravity && p.temperatureClass == tc
    && (if gravity < 10 || tc < 2 || tc > 27 then p.pressureClass == 0
        else PressureCan(gravity / 10, giant, p.pressureClass))
    && (if p.pressureClass == 0 then p.atmosphere == [] else MixCan(p.atmosphere, tc))
    && TemplateMiningCan(diameter, p.mining)
  }

  lemma OrdinaryRange(t: Tape, diameter: int, gravity: int, tc: int)
    requires diameter >= 1 && gravity >= 0
    ensures var p := Templates.OrdinaryOn(t, KindFromDiameter(diameter), diameter, gravity, tc).0;
            OrdinaryCan(p, diameter, gravity, tc)
  {
    hide PressureOn, Templates.OtherAirOn, Templates.MiningOn, PressureCan, MixCan, TemplateMiningCan;
    var giant := diameter > 40;
    PressureRange(t, gravity / 10, giant);
    var (rolled, t1) := PressureOn(t, gravity / 10, giant);
    TemplateMixRange(t1, tc);
    var vacuum := gravity < 10 || tc < 2 || tc > 27;
    var t2 := if !vacuum && rolled > 0 then Templates.OtherAirOn(t1, tc).1 else t1;
    TemplateMiningRange(t2, diameter);
  }

  lemma OrdinaryTape(p: Templates.TemplatePlanet, diameter: int, gravity: int, tc: int, rest: Tape) returns (t: Tape)
    requires diameter >= 1 && gravity >= 0 && OrdinaryCan(p, diameter, gravity, tc)
    ensures Templates.OrdinaryOn(t, KindFromDiameter(diameter), diameter, gravity, tc) == (p, rest)
  {
    hide PressureOn, Templates.OtherAirOn, Templates.MiningOn, PressureCan, MixCan, TemplateMiningCan;
    var giant := diameter > 40;
    var vacuum := gravity < 10 || tc < 2 || tc > 27;
    t := TemplateMiningTape(diameter, p.mining, rest);
    var rolled := if vacuum then SomePressure(giant) else p.pressureClass;
    SomePressureCan(gravity / 10, giant);
    PressureNonnegative(gravity / 10, giant, rolled);
    if p.pressureClass > 0 {
      t := TemplateMixTape(p.atmosphere, tc, t);
    }
    t := PressureTape(gravity / 10, giant, rolled, t);
  }

  function SomePressure(giant: bool): (v: int) {
    if giant then 11 else 0
  }

  lemma SomePressureCan(start: int, giant: bool)
    requires start >= 0
    ensures PressureCan(start, giant, SomePressure(giant))
  {
  }

  /** The planet at an orbit: its body, of class `tc` after ordering, unless the
      override replaces it. */
  ghost predicate TemplatePlanetAt(p: Templates.TemplatePlanet, i: int, warm: bool, previous: Option<int>, consumed: bool,
                                   diameter: int, density: int, hot: int, tc: int)
  {
    var giant := diameter > 40;
    && 1 <= i <= 9 && DiameterCan(START_DIAMETER[i], diameter) && DensityCan(giant, density)
    && TemperatureCan(START_TEMPERATURE[i], giant, warm, hot) && CappedBy(previous, hot, tc)
    && if !consumed && tc <= 11 then EarthLikeCan(p) else OrdinaryCan(p, diameter, density * diameter / 72, tc)
  }

  ghost predicate TemplatePlanetCan(p: Templates.TemplatePlanet, numPlanets: int, orbit: int, previous: Option<int>,
                                    consumed: bool)
  {
    exists i, diameter, density, hot, tc ::
      && Seeded(numPlanets, orbit, i)
      && TemplatePlanetAt(p, i, Warmed(numPlanets, orbit), previous, consumed, diameter, density, hot, tc)
  }

  lemma TemplatePlanetRange(t: Tape, numPlanets: int, orbit: int, previous: Option<int>, consumed: bool)
    requires 1 <= orbit <= numPlanets <= 9
    ensures TemplatePlanetCan(Templates.TemplatePlanetOn(t, numPlanets, orbit, previous, consumed).0,
                              numPlanets, orbit, previous, consumed)
  {
    hide DiameterOn, DensityOn, TemperatureOn, Templates.EarthLikeOn, Templates.OrdinaryOn;
    hide TemperatureCan, DiameterCan, EarthLikeCan, OrdinaryCan;
    var i := SeedIndex(numPlanets, orbit);
    var warm := Warmed(numPlanets, orbit);
    SeededIff(numPlanets, orbit, i);
    StartsNonnegative(i);
    var (diameter, t1) := DiameterOn(t, START_DIAMETER[i]);
    DiameterRange(t, START_DIAMETER[i]);
    var giant := diameter > 40;
    if warm {
      WarmedStaysRocky(numPlanets, orbit, i, diameter);
    }
    var (density, t2) := DensityOn(t1, giant);
    GravityNonnegative(density, diameter);
    var (hot, t3) := TemperatureOn(t2, START_TEMPERATURE[i], giant, 3, warm);
    TemperatureRange(t2, START_TEMPERATURE[i], giant, 3, warm);
    var tc := Templates.Ordered(previous, hot);
    EarthLikeRange(t3);
    OrdinaryRange(t3, diameter, density * diameter / 72, tc);
    assert TemplatePlanetAt(Templates.TemplatePlanetOn(t, numPlanets, orbit, previous, consumed).0,
                            i, warm, previous, consumed, diameter, density, hot, tc);
  }

  lemma TemplatePlanetTape(p: Templates.TemplatePlanet, numPlanets: int, orbit: int, previous: Option<int>,
                           consumed: bool, rest: Tape) returns (t: Tape)
    requires 1 <= orbit <= numPlanets <= 9 && TemplatePlanetCan(p, numPlanets, orbit, previous, consumed)
    ensures Templates.TemplatePlanetOn(t, numPlanets, orbit, previous, consumed) == (p, rest)
  {
    hide DiameterOn, DensityOn, TemperatureOn, Templates.EarthLikeOn, Templates.OrdinaryOn;
    hide TemperatureCan, EarthLikeCan, OrdinaryCan, Seeded;
    var warm := Warmed(numPlanets, orbit);
    var i, diameter, density, hot, tc :|
      && Seeded(numPlanets, orbit, i)
      && TemplatePlanetAt(p, i, warm, previous, consumed, diameter, density, hot, tc);
    SeededIff(numPlanets, orbit, i);
    StartsNonnegative(i);
    var giant := diameter > 40;
    if warm {
      WarmedStaysRocky(numPlanets, orbit, i, diameter);
    }
    GravityNonnegative(density, diameter);
    if !consumed && tc <= 11 {
      t := EarthLikeTape(p, rest);
    } else {
      t := OrdinaryTape(p, diameter, density * diameter / 72, tc, rest);
    }
    t := TemperatureTape(START_TEMPERATURE[i], giant, 3, warm, hot, t);
    t := DensityTape(giant, density, t);
    t := DiameterTape(START_DIAMETER[i], diameter, t);
  }

  /** The override is spent on the first special planet. */
  predicate SpentBefore(ps: seq<Templates.TemplatePlanet>, k: int) {
    exists j :: 0 <= j < k && j < |ps| && ps[j].special == 1
  }

  /** The class inside planet k of a template. */
  function InsideOf(ps: seq<Templates.TemplatePlanet>, k: int, previous: Option<int>): (tc: Option<int>)
    requires 0 <= k <= |ps|
  {
    if k == 0 then previous else Some(ps[k - 1].temperatureClass)
  }

  /** Planet k is possible where it stands. */
  ghost predicate StandsAt(ps: seq<Templates.TemplatePlanet>, n: int, orbit: int, previous: Option<int>, consumed: bool,
                           k: int)
    requires 0 <= k < |ps|
  {
    TemplatePlanetCan(ps[k], n, orbit + k, InsideOf(ps, k, previous), consumed || SpentBefore(ps, k))
  }

  /** The planets of a template from `orbit` outward. */
  ghost predicate PlanetsCan(ps: seq<Templates.TemplatePlanet>, n: int, orbit: int, previous: Option<int>, consumed: bool)
  {
    |ps| == n + 1 - orbit && forall k :: 0 <= k < |ps| ==> StandsAt(ps, n, orbit, previous, consumed, k)
  }

  lemma SpentCons(p: Templates.TemplatePlanet, rest: seq<Templates.TemplatePlanet>, k: int)
    requires 0 <= k <= |rest|
    ensures SpentBefore([p] + rest, k + 1) <==> p.special == 1 || SpentBefore(rest, k)
    ensures !SpentBefore([p] + rest, 0)
  {
    var ps := [p] + rest;
    if SpentBefore(rest, k) {
      var j :| 0 <= j < k && j < |rest| && rest[j].special == 1;
      assert ps[j + 1].special == 1;
    }
    if p.special == 1 {
      assert ps[0].special == 1;
    }
    if SpentBefore(ps, k + 1) {
      var j :| 0 <= j < k + 1 && j < |ps| && ps[j].special == 1;
      assert j == 0 || rest[j - 1].special == 1;
    }
  }

  lemma StandsFirst(p: Templates.TemplatePlanet, rest: seq<Templates.TemplatePlanet>, n: int, orbit: int,
                    previous: Option<int>, consumed: bool)
    ensures StandsAt([p] + rest, n, orbit, previous, consumed, 0) <==> TemplatePlanetCan(p, n, orbit, previous, consumed)
  {
    hide TemplatePlanetCan;
  }

  lemma StandsNext(p: Templates.TemplatePlanet, rest: seq<Templates.TemplatePlanet>, n: int, orbit: int,
                   previous: Option<int>, consumed: bool, k: int)
    requires 0 <= k < |rest|
    ensures StandsAt([p] + rest, n, orbit, previous, consumed, k + 1)
       <==> StandsAt(rest, n, orbit + 1, Some(p.temperatureClass), consumed || p.special == 1, k)
  {
    hide TemplatePlanetCan, SpentBefore;
    SpentCons(p, rest, k);
    var ps := [p] + rest;
    assert orbit + (k + 1) == orbit + 1 + k && ps[k + 1] == rest[k];
    assert InsideOf(ps, k + 1, previous) == InsideOf(rest, k, Some(p.temperatureClass));
  }

  lemma PlanetsCons(p: Templates.TemplatePlanet, rest: seq<Templates.TemplatePlanet>, n: int, orbit: int,
                    previous: Option<int>, consumed: bool)
    ensures PlanetsCan([p] + rest, n, orbit, previous, consumed)
       <==> TemplatePlanetCan(p, n, orbit, previous, consumed)
            && PlanetsCan(rest, n, orbit + 1, Some(p.temperatureClass), consumed || p.special == 1)
  {
    hide TemplatePlanetCan, StandsAt;
    var ps := [p] + rest;
    var next, tc, spent := orbit + 1, Some(p.temperatureClass), consumed || p.special == 1;
    StandsFirst(p, rest, n, orbit, previous, consumed);
    forall k | 0 <= k < |rest|
      ensures StandsAt(ps, n, orbit, previous, consumed, k + 1) <==> StandsAt(rest, n, next, tc, spent, k)
    {
      StandsNext(p, rest, n, orbit, previous, consumed, k);
    }
    if PlanetsCan(rest, n, next, tc, spent) {
      forall k | 1 <= k < |ps| ensures StandsAt(ps, n, orbit, previous, consumed, k) {
        assert StandsAt(rest, n, next, tc, spent, k - 1);
      }
    }
  }

  lemma {:induction false} PlanetsRange(t: Tape, n: int, orbit: int, previous: Option<int>, consumed: bool)
    requires 1 <= orbit <= n + 1 <= 10
    ensures PlanetsCan(Templates.PlanetsOn(t, n, orbit, previous, consumed).0, n, orbit, previous, consumed)
    decreases n - orbit
  {
    hide Templates.TemplatePlanetOn, TemplatePlanetCan, SpentBefore;
    if orbit <= n {
      var (p, t1) := Templates.TemplatePlanetOn(t, n, orbit, previous, consumed);
      TemplatePlanetRange(t, n, orbit, previous, consumed);
      PlanetsRange(t1, n, orbit + 1, Some(p.temperatureClass), consumed || p.special == 1);
      var rest := Templates.PlanetsOn(t1, n, orbit + 1, Some(p.temperatureClass), consumed || p.special == 1).0;
      PlanetsCons(p, rest, n, orbit, previous, consumed);
    }
  }

  lemma {:induction false} PlanetsTape(ps: seq<Templates.TemplatePlanet>, n: int, orbit: int, previous: Option<int>,
                                       consumed: bool, rest: Tape) returns (t: Tape)
    requires 1 <= orbit <= n + 1 <= 10 && PlanetsCan(ps, n, orbit, previous, consumed)
    ensures Templates.PlanetsOn(t, n, orbit, previous, consumed) == (ps, rest)
    decreases n - orbit
  {
    hide Templates.TemplatePlanetOn, TemplatePlanetCan, SpentBefore;
    if orbit > n {
      t := rest;
    } else {
      assert ps == [ps[0]] + ps[1..];
      PlanetsCons(ps[0], ps[1..], n, orbit, previous, consumed);
      t := PlanetsTape(ps[1..], n, orbit + 1, Some(ps[0].temperatureClass), consumed || ps[0].special == 1, rest);
      t := TemplatePlanetTape(ps[0], n, orbit, previous, consumed, t);
    }
  }

  /** Every template that can be rolled, and no other. */
  lemma TemplateIff(ps: seq<Templates.TemplatePlanet>, n: int)
    requires 1 <= n <= 9
    ensures (exists t :: Templates.PlanetsOn(t, n, 1, None, false).0 == ps) <==> PlanetsCan(ps, n, 1, None, false)
  {
    hide Templates.PlanetsOn, PlanetsCan;
    if PlanetsCan(ps, n, 1, None, false) {
      var t := PlanetsTape(ps, n, 1, None, false, []);
    }
    forall t | Templates.PlanetsOn(t, n, 1, None, false).0 == ps ensures PlanetsCan(ps, n, 1, None, false) {
      PlanetsRange(t, n, 1, None, false);
    }
  }
}
