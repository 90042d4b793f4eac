/** Stars and planets of a cluster. */
module Generator {
  import opened Atmosphere
  import opened Bodies
  import opened GasMaps
  import opened Options
  import opened Prng

  /**
   `density` is in hundredths, `gravity` is density * diameter (in units of
   1/7200 of Earth's) and `mining` is in fifths, so all three are exact.
   */
  datatype Planet = Planet(
    id: int,
    starId: int,
    orbit: int,
    kind: PlanetKind,
    diameter: int,
    density: int,
    gravity: int,
    temperatureClass: int,
    pressureClass: int,
    gases: Mix,
    mining: int
  )

  datatype StarKind = Dwarf | Degenerate | MainSequence | Giant

  datatype StarColor = Blue | BlueWhite | White | YellowWhite | Yellow | Orange | Red

  datatype Star = Star(id: int, systemId: int, kind: StarKind, color: StarColor, size: int, numPlanets: int)

  // ----- atmosphere -----

  /** The mix as the ascending slice of its gases. */
  function MixListOn(t: Tape, tc: int): (r: (seq<GasShare>, Tape)) {
    var (dice, t1) := DiceOn(t, 2, 4);
    var (picked, t2) := PickOn(t1, FirstGas(tc), dice / 2, tc, true);
    PickPicks(t1, FirstGas(tc), dice / 2, tc, true);
    PicksNormalizeToMix(picked, FirstGas(tc), FirstGas(tc) + 4, tc);
    (Normalized(picked), t2)
  }

  lemma MixListIsMix(t: Tape, tc: int)
    ensures var s := MixListOn(t, tc).0;
            IsMix(s) && forall i :: 0 <= i < |s| && s[i].gas == HE ==> tc <= 5
  {
    var (dice, t1) := DiceOn(t, 2, 4);
    var (picked, t2) := PickOn(t1, FirstGas(tc), dice / 2, tc, true);
    PickPicks(t1, FirstGas(tc), dice / 2, tc, true);
    PicksNormalizeToMix(picked, FirstGas(tc), FirstGas(tc) + 4, tc);
  }

  /** The window of five gases for a temperature class. */
  method GasWindow(tc: int) returns (minGasIndex: Gas, maxGasIndex: Gas)
    ensures minGasIndex == FirstGas(tc) && maxGasIndex == FirstGas(tc) + 4
  {
    var n := 100 * tc / 225;
    if n <= 1 {
      return 1, 5;
    } else if n >= 9 {
      return 9, 13;
    } else {
      return n, n + 4;
    }
  }

  /** The map and the first gas found agree with the slice picked so far. */
  ghost predicate Filled(gases: Mix, first: Gas, picked: seq<GasShare>, below: Gas) {
    && gases == MixOf(picked) && |gases| == |picked|
    && DistinctGases(picked) && (forall k :: 0 <= k < |picked| ==> picked[k].gas < below)
    && (picked != [] ==> first == picked[0].gas)
  }

  /** The loop body for one gas. */
  method TakeGas(rng: PRNG, i: Gas, tc: int, was: Mix, firstWas: Gas, ghost picked: seq<GasShare>)
    returns (gases: Mix, first: Gas, ghost now: seq<GasShare>)
    requires Filled(was, firstWas, picked, i)
    modifies rng
    ensures var (qty, t1) := TryGasOn(old(rng.tape), i, tc, true);
            rng.tape == t1 && now == if qty > 0 then picked + [GasShare(i, qty)] else picked
    ensures Filled(gases, first, now, i + 1)
  {
    hide TryGasOn, MixOf;
    gases, first, now := was, firstWas, picked;
    var qty := TryGas(rng, i, tc);
    if qty > 0 {
      MixOfGrows(picked, GasShare(i, qty));
      gases := gases[i := qty];
      if |gases| == 1 {
        first := i;
      }
      now := picked + [GasShare(i, qty)];
    }
  }

  /** One pass over the window, filling the map. */
  method FillGases(rng: PRNG, minGasIndex: Gas, maxGasIndex: Gas, wanted: int, tc: int)
    returns (gases: Mix, firstGasFound: Gas, ghost picked: seq<GasShare>)
    modifies rng
    ensures (picked, rng.tape) == PassOn(old(rng.tape), minGasIndex, maxGasIndex, [], wanted, tc, true)
    ensures gases == MixOf(picked) && |gases| == |picked| && DistinctGases(picked)
    ensures picked != [] ==> firstGasFound == picked[0].gas
  {
    hide PassOn, TryGasOn;
    gases, firstGasFound, picked := map[], 0, [];
    ghost var target := PassOn(rng.tape, minGasIndex, maxGasIndex, [], wanted, tc, true);
    var i := minGasIndex;
    while i <= maxGasIndex
      invariant PassOn(rng.tape, i, maxGasIndex, picked, wanted, tc, true) == target
      invariant Filled(gases, firstGasFound, picked, i)
      decreases maxGasIndex - i
    {
      PassTurn(rng.tape, i, maxGasIndex, picked, wanted, tc);
      if |gases| == wanted {
        break;
      }
      gases, firstGasFound, picked := TakeGas(rng, i, tc, gases, firstGasFound, picked);
      i := i + 1;
    }
    PassTurn(rng.tape, i, maxGasIndex, picked, wanted, tc);
  }

  /** One turn of a cluster pass. */
  lemma PassTurn(t: Tape, gas: Gas, last: Gas, picked: seq<GasShare>, wanted: int, tc: int)
    ensures gas > last || |picked| == wanted ==> PassOn(t, gas, last, picked, wanted, tc, true) == (picked, t)
    ensures var (qty, t1) := TryGasOn(t, gas, tc, true);
            !(gas > last || |picked| == wanted) ==>
              PassOn(t, gas, last, picked, wanted, tc, true)
              == PassOn(t1, gas + 1, last, if qty > 0 then picked + [GasShare(gas, qty)] else picked, wanted, tc, true)
  {
    hide TryGasOn;
  }

  /** The loop body's rolls for one gas; 0 when it is passed over. */
  method TryGas(rng: PRNG, i: Gas, tc: int) returns (qty: int)
    modifies rng
    ensures (qty, rng.tape) == TryGasOn(old(rng.tape), i, tc, true)
  {
    var skipChance, maxQty := 3, 100;
    if i == HE {
      if tc > 5 {
        return 0;
      }
      skipChance, maxQty := 2, 20;
    } else if i == O2 {
      maxQty := 50;
    }
    var skip := rng.Roll(1, 3);
    if skip >= skipChance {
      return 0;
    }
    qty := rng.Roll(1, maxQty);
  }

  method RollGases(rng: PRNG, tc: int) returns (gases: Mix)
    modifies rng
    ensures gases == MixOf(MixListOn(old(rng.tape), tc).0)
    ensures rng.tape == MixListOn(old(rng.tape), tc).1
  {
    hide PassOn, DiceOn;
    var dice := rng.Dice(2, 4);
    var numberOfGasesWanted := dice / 2;
    var minGasIndex, maxGasIndex := GasWindow(tc);
    ghost var target := PickOn(rng.tape, minGasIndex, numberOfGasesWanted, tc, true);
    PickPicks(rng.tape, minGasIndex, numberOfGasesWanted, tc, true);
    var firstGasFound := 0;
    ghost var picked: seq<GasShare> := [];
    gases := map[];
    while |gases| == 0
      invariant gases == MixOf(picked) && |gases| == |picked| && DistinctGases(picked)
      invariant picked == [] ==> PickOn(rng.tape, minGasIndex, numberOfGasesWanted, tc, true) == target
      invariant picked != [] ==> (picked, rng.tape) == target && firstGasFound == picked[0].gas
      decreases |rng.tape|, if picked == [] then 1 else 0
    {
      gases, firstGasFound, picked := FillGases(rng, minGasIndex, maxGasIndex, numberOfGasesWanted, tc);
    }
    gases := NormalizeMix(gases, firstGasFound, picked);
  }

  // ----- mining difficulty -----

  function MiningTryOn(t: Tape, diameter: int): (r: (int, Tape))
    ensures t != [] ==> |r.1| < |t|
    ensures t == [] ==> r.1 == []
  {
    var (a, t1) := RollOn(t, 1, 3);
    var (b, t2) := RollOn(t1, 1, 3);
    var (c, t3) := RollOn(t2, 1, 4);
    var (d, t4) := RollOn(t3, 1, diameter);
    var (e, t5) := RollOn(t4, 1, 30);
    var (f, t6) := RollOn(t5, 1, 30);
    ((a + b - c) * d + e + f, t6)
  }

  /** Roll until the value is in 40..500. */
  function MiningOn(t: Tape, diameter: int): (r: (int, Tape))
    ensures 40 <= r.0 <= 500
    decreases |t|
  {
    var (v, t1) := MiningTryOn(t, diameter);
    if 40 <= v <= 500 then (v, t1)
    else
      CalmMiningAccepted(diameter);
      MiningOn(t1, diameter)
  }

  /** An accepting roll always exists: calm draws give 56. */
  lemma CalmMiningAccepted(diameter: int)
    ensures MiningTryOn([], diameter).0 == 56
  {
    var (d, t4) := RollOn([], 1, diameter);
    assert 0 * d == 0;
  }

  method RollMining(rng: PRNG, diameter: int) returns (v: int)
    modifies rng
    ensures (v, rng.tape) == MiningOn(old(rng.tape), diameter)
  {
    v := MiningTry(rng, diameter);
    while !(v >= 40 && v <= 500)
      invariant MiningOn(old(rng.tape), diameter)
             == if 40 <= v <= 500 then (v, rng.tape) else MiningOn(rng.tape, diameter)
      invariant |rng.tape| == 0 && !(40 <= v <= 500) ==> old(rng.tape) != []
      decreases |rng.tape|, if 40 <= v <= 500 then 0 else 1
    {
      CalmMiningAccepted(diameter);
      v := MiningTry(rng, diameter);
    }
  }

  method MiningTry(rng: PRNG, diameter: int) returns (v: int)
    modifies rng
    ensures (v, rng.tape) == MiningTryOn(old(rng.tape), diameter)
  {
    var a := rng.Roll(1, 3);
    var b := rng.Roll(1, 3);
    var c := rng.Roll(1, 4);
    var d := rng.Roll(1, diameter);
    var e := rng.Roll(1, 30);
    var f := rng.Roll(1, 30);
    v := (a + b - c) * d + e + f;
  }

  // ----- planet -----

  /** Never warmer than the planet before. */
  function Cooled(previous: Option<Planet>, tc: int): (c: int) {
    if previous.Some? && previous.value.temperatureClass < tc then previous.value.temperatureClass else tc
  }

  function PlanetOn(t: Tape, numPlanets: int, orbit: int, previous: Option<Planet>): (r: (Planet, Tape))
    requires 1 <= orbit <= numPlanets <= 9
  {
    var seed := SeedIndex(numPlanets, orbit);
    var (diameter, t1) := DiameterOn(t, START_DIAMETER[seed]);
    var kind := KindFromDiameter(diameter);
    var (density, t2) := DensityOn(t1, kind == GasGiant);
    var gravity := density * diameter;
    var (hot, t3) := TemperatureOn(t2, START_TEMPERATURE[seed], kind == GasGiant, 2, Warmed(numPlanets, orbit));
    var tc := Cooled(previous, hot);
    var (pressure, t4) := PressureOn(t3, gravity / 720, kind == GasGiant);
    var (gases, t5) := if pressure > 0 then MixListOn(t4, tc) else ([], t4);
    var (mining, t6) := MiningOn(t5, diameter);
    (Planet(0, 0, 0, kind, diameter, density, gravity, tc, pressure, MixOf(gases), mining * 11), t6)
  }

  method RollPlanet(rng: PRNG, numPlanets: int, orbit: int, previousPlanet: Option<Planet>) returns (p: Planet)
    requires 1 <= orbit <= numPlanets <= 9
    modifies rng
    ensures (p, rng.tape) == PlanetOn(old(rng.tape), numPlanets, orbit, previousPlanet)
  {
    hide DiameterOn, DensityOn, TemperatureOn, PressureOn, MixListOn, MiningOn;
    var seedIndex;
    if numPlanets <= 3 {
      seedIndex := 2 * orbit + 1;
    } else {
      seedIndex := 9 * orbit / numPlanets;
    }
    assert seedIndex == SeedIndex(numPlanets, orbit);
    var diameter := RollDiameter(rng, START_DIAMETER[seedIndex]);
    var kind := KindFromDiameter(diameter);
    var isGasGiant := kind == GasGiant;
    var density := RollDensity(rng, isGasGiant);
    var gravity := density * diameter;
    var tc := RollTemperature(rng, START_TEMPERATURE[seedIndex], isGasGiant, 2, numPlanets < 4 && orbit < 3);
    if previousPlanet.Some? && previousPlanet.value.temperatureClass < tc {
      tc := previousPlanet.value.temperatureClass;
    }
    var pressure := RollPressure(rng, gravity / 720, isGasGiant);
    var gases: Mix := map[];
    if pressure > 0 {
      gases := RollGases(rng, tc);
    }
    var mining := RollMining(rng, diameter);
    p := Planet(0, 0, 0, kind, diameter, density, gravity, tc, pressure, gases, mining * 11);
  }

  ghost predicate SoundGases(gases: Mix, tc: int) {
    && 1 <= |gases| <= 4 && InRange(gases) && MixTotal(gases) == 100
    && (forall g :: g in gases ==> gases[g] >= 0)
    && (HE in gases ==> tc <= 5)
  }

  ghost predicate SoundPlanet(p: Planet, numPlanets: int, orbit: int) {
    && p.diameter >= 3 && p.kind == KindFromDiameter(p.diameter)
    && 1 <= p.temperatureClass <= 30
    && (p.kind == GasGiant ==> p.temperatureClass <= 7 && 11 <= p.pressureClass <= 29)
    && (p.kind == Rocky ==> 0 <= p.pressureClass <= 12)
    && (Warmed(numPlanets, orbit) ==> p.temperatureClass >= 12 && p.kind == Rocky)
    && (if p.pressureClass == 0 then p.gases == map[] else SoundGases(p.gases, p.temperatureClass))
    && 88 * 5 <= p.mining <= 1100 * 5
  }

  /** A slice mix and its map say the same. */
  lemma MixIsSound(s: seq<GasShare>, tc: int)
    requires IsMix(s) && forall i :: 0 <= i < |s| && s[i].gas == HE ==> tc <= 5
    ensures SoundGases(MixOf(s), tc)
  {
    MixOfSize(s);
    MixOfInRange(s);
    MixOfTotal(s);
    forall g | g in MixOf(s) ensures MixOf(s)[g] >= 0 && (g == HE ==> tc <= 5) {
      MixOfKeys(s, g);
      var i :| 0 <= i < |s| && s[i].gas == g;
      MixOfEntries(s, i);
    }
  }

  lemma PlanetIsSound(t: Tape, numPlanets: int, orbit: int, previous: Option<Planet>)
    requires 1 <= orbit <= numPlanets <= 9
    requires previous.Some? ==> SoundPlanet(previous.value, numPlanets, orbit - 1)
    ensures var p := PlanetOn(t, numPlanets, orbit, previous).0;
            && SoundPlanet(p, numPlanets, orbit)
            && (previous.Some? ==> p.temperatureClass <= previous.value.temperatureClass)
  {
    hide DiameterOn, DensityOn, TemperatureOn, PressureOn, MixListOn, MiningOn;
    var seed := SeedIndex(numPlanets, orbit);
    var (diameter, t1) := DiameterOn(t, START_DIAMETER[seed]);
    var kind := KindFromDiameter(diameter);
    var (density, t2) := DensityOn(t1, kind == GasGiant);
    var (hot, t3) := TemperatureOn(t2, START_TEMPERATURE[seed], kind == GasGiant, 2, Warmed(numPlanets, orbit));
    var tc := Cooled(previous, hot);
    var (pressure, t4) := PressureOn(t3, density * diameter / 720, kind == GasGiant);
    if Warmed(numPlanets, orbit) {
      WarmedIsRocky(t, numPlanets, orbit);
    }
    if pressure > 0 {
      MixListIsMix(t4, tc);
      MixIsSound(MixListOn(t4, tc).0, tc);
    }
  }

  /** The documented 3..7 of a gas giant holds exactly when the planet inside
      it, if any, is no colder than 3: the ordering rule can push it below. */
  lemma GiantTemperatureIff(t: Tape, numPlanets: int, orbit: int, previous: Option<Planet>)
    requires 1 <= orbit <= numPlanets <= 9
    ensures var p := PlanetOn(t, numPlanets, orbit, previous).0;
            p.kind == GasGiant ==>
              (3 <= p.temperatureClass <= 7 <==> (previous.None? || previous.value.temperatureClass >= 3))
  {
    hide DiameterOn, DensityOn, TemperatureOn, PressureOn, MixListOn, MiningOn;
    if Warmed(numPlanets, orbit) {
      WarmedIsRocky(t, numPlanets, orbit);
    }
  }

  // ----- star -----

  function KindOf(roll: int): (k: StarKind) {
    if roll == 1 then Dwarf else if roll == 2 then Degenerate else if roll == 3 then Giant else MainSequence
  }

  function ColorOf(roll: int): (c: StarColor)
    requires 1 <= roll <= 7
  {
    [Blue, BlueWhite, White, YellowWhite, Yellow, Orange, Red][roll - 1]
  }

  function SizeOfDie(c: StarColor): (sides: int) {
    match c
    case Blue => 8
    case BlueWhite => 7
    case White => 6
    case YellowWhite => 5
    case Yellow => 4
    case Orange => 3
    case Red => 2
  }

  function NumberOfRolls(k: StarKind): (n: int) {
    match k
    case Dwarf => 1
    case Degenerate => 2
    case MainSequence => 2
    case Giant => 3
  }

  /** How many planets: biased dice, bumped up by d2 and then down by d3. */
  function NumPlanetsOn(t: Tape, kind: StarKind, color: StarColor): (r: (int, Tape))
    ensures 1 <= r.0 <= 9
  {
    var (dice, t1) := DiceOn(t, NumberOfRolls(kind), SizeOfDie(color));
    var (n, t2) := RaiseOn(t1, dice - 2, 1, 2);
    LowerOn(t2, n, 9, 3)
  }

  /** The planets from orbit `orbit` outward. */
  function OrbitsOn(t: Tape, numPlanets: int, orbit: int, previous: Option<Planet>): (r: (seq<Planet>, Tape))
    requires 1 <= orbit <= numPlanets + 1 <= 10
    decreases numPlanets - orbit
  {
    if orbit > numPlanets then ([], t)
    else
      var (p, t1) := PlanetOn(t, numPlanets, orbit, previous);
      var (rest, t2) := OrbitsOn(t1, numPlanets, orbit + 1, Some(p));
      ([p] + rest, t2)
  }

  function StarOn(t: Tape): (r: (Star, seq<Planet>, Tape))
    ensures 1 <= r.0.numPlanets <= 9
  {
    var (k, t1) := RollOn(t, 1, 10);
    var (c, t2) := RollOn(t1, 1, 7);
    var (d10, t3) := DiceOn(t2, 1, 10);
    var (n, t4) := NumPlanetsOn(t3, KindOf(k), ColorOf(c));
    var (planets, t5) := OrbitsOn(t4, n, 1, None);
    (Star(0, 0, KindOf(k), ColorOf(c), d10 - 1, n), planets, t5)
  }

  /** The loop that adds rolls onto a biased start. */
  method AddRolls(rng: PRNG, bias: int, numberOfRolls: int, sizeOfDie: int) returns (n: int)
    requires sizeOfDie >= 1
    modifies rng
    ensures n == bias + DiceOn(old(rng.tape), numberOfRolls, sizeOfDie).0
    ensures rng.tape == DiceOn(old(rng.tape), numberOfRolls, sizeOfDie).1
  {
    n := bias;
    ghost var target := DiceOn(rng.tape, numberOfRolls, sizeOfDie);
    var i := 1;
    while i <= numberOfRolls
      invariant target.0 == n - bias + DiceOn(rng.tape, numberOfRolls - i + 1, sizeOfDie).0
      invariant target.1 == DiceOn(rng.tape, numberOfRolls - i + 1, sizeOfDie).1
    {
      var v := rng.Roll(1, sizeOfDie);
      n := n + v;
      i := i + 1;
    }
  }

  method RollNumPlanets(rng: PRNG, kind: StarKind, color: StarColor) returns (n: int)
    modifies rng
    ensures (n, rng.tape) == NumPlanetsOn(old(rng.tape), kind, color)
  {
    n := AddRolls(rng, -2, NumberOfRolls(kind), SizeOfDie(color));
    n := Raise(rng, n, 1, 2);
    n := Lower(rng, n, 9, 3);
  }

  method RollStar(rng: PRNG) returns (star: Star, planets: seq<Planet>)
    modifies rng
    ensures (star, planets, rng.tape) == StarOn(old(rng.tape))
  {
    hide NumPlanetsOn, OrbitsOn;
    var kind, color;
    var k := rng.Roll(1, 10);
    if k == 1 {
      kind := Dwarf;
    } else if k == 2 {
      kind := Degenerate;
    } else if k == 3 {
      kind := Giant;
    } else {
      kind := MainSequence;
    }
    var c := rng.Roll(1, 7);
    if c == 1 {
      color := Blue;
    } else if c == 2 {
      color := BlueWhite;
    } else if c == 3 {
      color := White;
    } else if c == 4 {
      color := YellowWhite;
    } else if c == 5 {
      color := Yellow;
    } else if c == 6 {
      color := Orange;
    } else {
      color := Red;
    }
    var d10 := rng.Dice(1, 10);
    var n := RollNumPlanets(rng, kind, color);
    star := Star(0, 0, kind, color, d10 - 1, n);
    planets := RollOrbits(rng, n);
  }

  lemma OrbitsTurn(t: Tape, n: int, orbit: int, previous: Option<Planet>, before: seq<Planet>)
    requires 1 <= orbit <= n <= 9
    ensures var (p, t1) := PlanetOn(t, n, orbit, previous);
            && before + OrbitsOn(t, n, orbit, previous).0 == before + [p] + OrbitsOn(t1, n, orbit + 1, Some(p)).0
            && OrbitsOn(t, n, orbit, previous).1 == OrbitsOn(t1, n, orbit + 1, Some(p)).1
  {
    hide PlanetOn;
    var (p, t1) := PlanetOn(t, n, orbit, previous);
    var rest := OrbitsOn(t1, n, orbit + 1, Some(p)).0;
    assert before + ([p] + rest) == before + [p] + rest;
  }

  /** The orbit loop of RollStar. */
  method RollOrbits(rng: PRNG, n: int) returns (planets: seq<Planet>)
    requires 1 <= n <= 9
    modifies rng
    ensures (planets, rng.tape) == OrbitsOn(old(rng.tape), n, 1, None)
  {
    hide PlanetOn;
    ghost var target := OrbitsOn(rng.tape, n, 1, None);
    planets := [];
    var previousPlanet: Option<Planet> := None;
    var orbit := 1;
    while orbit <= n
      invariant 1 <= orbit <= n + 1
      invariant planets + OrbitsOn(rng.tape, n, orbit, previousPlanet).0 == target.0
      invariant OrbitsOn(rng.tape, n, orbit, previousPlanet).1 == target.1
    {
      OrbitsTurn(rng.tape, n, orbit, previousPlanet, planets);
      var p := RollPlanet(rng, n, orbit, previousPlanet);
      planets := planets + [p];
      previousPlanet := Some(p);
      orbit := orbit + 1;
    }
    assert planets + [] == planets;
  }

  ghost predicate SoundOrbits(ps: seq<Planet>, numPlanets: int, orbit: int) {
    && (forall i :: 0 <= i < |ps| ==> SoundPlanet(ps[i], numPlanets, orbit + i))
    && (forall i, j :: 0 <= i < j < |ps| ==> ps[i].temperatureClass >= ps[j].temperatureClass)
  }

  lemma {:induction false} OrbitsAreSound(t: Tape, numPlanets: int, orbit: int, previous: Option<Planet>)
    requires 1 <= orbit <= numPlanets + 1 <= 10
    requires previous.Some? ==> SoundPlanet(previous.value, numPlanets, orbit - 1)
    ensures var ps := OrbitsOn(t, numPlanets, orbit, previous).0;
            && |ps| == numPlanets + 1 - orbit && SoundOrbits(ps, numPlanets, orbit)
            && (previous.Some? ==>
                  forall i :: 0 <= i < |ps| ==> ps[i].temperatureClass <= previous.value.temperatureClass)
    decreases numPlanets - orbit
  {
    hide PlanetOn;
    if orbit <= numPlanets {
      var (p, t1) := PlanetOn(t, numPlanets, orbit, previous);
      PlanetIsSound(t, numPlanets, orbit, previous);
      OrbitsAreSound(t1, numPlanets, orbit + 1, Some(p));
      SoundCons(p, OrbitsOn(t1, numPlanets, orbit + 1, Some(p)).0, numPlanets, orbit);
    }
  }

  lemma SoundCons(p: Planet, rest: seq<Planet>, numPlanets: int, orbit: int)
    requires SoundPlanet(p, numPlanets, orbit) && SoundOrbits(rest, numPlanets, orbit + 1)
    requires forall i :: 0 <= i < |rest| ==> rest[i].temperatureClass <= p.temperatureClass
    ensures SoundOrbits([p] + rest, numPlanets, orbit)
  {
    var ps := [p] + rest;
    forall i | 0 <= i < |ps| ensures SoundPlanet(ps[i], numPlanets, orbit + i) {
      if i > 0 {
        assert ps[i] == rest[i - 1] && orbit + i == orbit + 1 + (i - 1);
      }
    }
  }

  /** Every star has 1..9 planets, each sound, none warmer than one inside it. */
  lemma StarIsSound(t: Tape)
    ensures var (star, ps, rest) := StarOn(t);
            && 1 <= star.numPlanets <= 9 && 0 <= star.size <= 9
            && |ps| == star.numPlanets && SoundOrbits(ps, star.numPlanets, 1)
  {
    var (k, t1) := RollOn(t, 1, 10);
    var (c, t2) := RollOn(t1, 1, 7);
    var (d10, t3) := DiceOn(t2, 1, 10);
    var (n, t4) := NumPlanetsOn(t3, KindOf(k), ColorOf(c));
    OrbitsAreSound(t4, n, 1, None);
  }

  lemma {:induction false} OrbitsHaveNoIds(t: Tape, numPlanets: int, orbit: int, previous: Option<Planet>)
    requires 1 <= orbit <= numPlanets + 1 <= 10
    ensures var ps := OrbitsOn(t, numPlanets, orbit, previous).0;
            |ps| == numPlanets + 1 - orbit
            && forall i :: 0 <= i < |ps| ==> ps[i].id == ps[i].starId == ps[i].orbit == 0
    decreases numPlanets - orbit
  {
    hide PlanetOn;
    if orbit <= numPlanets {
      var (p, t1) := PlanetOn(t, numPlanets, orbit, previous);
      NoIdsYet(t, numPlanets, orbit, previous);
      OrbitsHaveNoIds(t1, numPlanets, orbit + 1, Some(p));
    }
  }

  lemma NoIdsYet(t: Tape, numPlanets: int, orbit: int, previous: Option<Planet>)
    requires 1 <= orbit <= numPlanets <= 9
    ensures var p := PlanetOn(t, numPlanets, orbit, previous).0;
            p.id == p.starId == p.orbit == 0
  {
    hide DiameterOn, DensityOn, TemperatureOn, PressureOn, MixListOn, MiningOn;
  }

  /** Identifiers and orbits are stamped later. */
  lemma StarHasNoIds(t: Tape)
    ensures var (star, ps, rest) := StarOn(t);
            && star.id == star.systemId == 0 && |ps| == star.numPlanets
            && forall i :: 0 <= i < |ps| ==> ps[i].id == ps[i].starId == ps[i].orbit == 0
  {
    hide OrbitsOn, NumPlanetsOn;
    var (k, t1) := RollOn(t, 1, 10);
    var (c, t2) := RollOn(t1, 1, 7);
    var (d10, t3) := DiceOn(t2, 1, 10);
    var (n, t4) := NumPlanetsOn(t3, KindOf(k), ColorOf(c));
    OrbitsHaveNoIds(t4, n, 1, None);
  }
}
