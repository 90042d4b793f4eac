/**
 Home-star templates: one attempt rolls the planets of a system, with a single
 earth-like override, and scores it for viability.
 */
module Templates {
  import opened Atmosphere
  import opened Bodies
  import opened Options
  import opened Prng

  /** Gravity and mining difficulty are integers scaled by 100. */
  datatype TemplatePlanet = TemplatePlanet(
    kind: PlanetKind,
    diameter: int,
    gravity: int,
    temperatureClass: int,
    pressureClass: int,
    mining: int,
    atmosphere: seq<GasShare>,
    special: int
  )

  // ----- atmospheres -----

  /** One time in three, 1..30 percent of a gas. */
  function MaybeGasOn(t: Tape, gas: Gas): (r: (seq<GasShare>, Tape))
    ensures |r.0| <= 1
    ensures |r.0| == 1 ==> r.0[0].gas == gas && 1 <= r.0[0].percent <= 30
  {
    var (coin, t1) := RollOn(t, 1, 3);
    if coin != 1 then ([], t1)
    else
      var (pct, t2) := RollOn(t1, 1, 30);
      ([GasShare(gas, pct)], t2)
  }

  lemma MaybeGasByDraw(x: nat, rest: Tape, gas: Gas)
    ensures MaybeGasOn([x] + rest, gas).0 == [] <==> x % 3 != 0
  {
    RollByDraw(x, rest, 1, 3);
  }

  /** Perhaps NH3, nitrogen as the rest, perhaps CO2, and 11..30 of oxygen. */
  function EarthAirOn(t: Tape): (r: (seq<GasShare>, Tape)) {
    var (nh3, t1) := MaybeGasOn(t, NH3);
    var (co2, t2) := MaybeGasOn(t1, CO2);
    var (o2, t3) := RollOn(t2, 1, 20);
    var n2 := 100 - Total(nh3) - Total(co2) - (o2 + 10);
    (nh3 + [GasShare(N2, n2)] + co2 + [GasShare(O2, o2 + 10)], t3)
  }

  ghost predicate IsEarthAir(s: seq<GasShare>) {
    && IsMix(s) && s != [] && s[|s| - 1].gas == O2 && 11 <= s[|s| - 1].percent <= 30
    && exists i :: 0 <= i < |s| && s[i].gas == N2 && s[i].percent >= 10
  }

  lemma EarthAirIsMix(t: Tape)
    ensures IsEarthAir(EarthAirOn(t).0)
  {
    var (nh3, t1) := MaybeGasOn(t, NH3);
    var (co2, t2) := MaybeGasOn(t1, CO2);
    var (o2, t3) := RollOn(t2, 1, 20);
    var s := EarthAirOn(t).0;
    var n2 := GasShare(N2, 100 - Total(nh3) - Total(co2) - (o2 + 10));
    TotalOfFour(nh3, n2, co2, GasShare(O2, o2 + 10));
    assert s[|nh3|] == n2;
  }

  lemma {:induction false} TotalAppend(a: seq<GasShare>, b: seq<GasShare>)
    ensures Total(a + b) == Total(a) + Total(b)
    decreases |b|
  {
    if b == [] {
      assert a + b == a;
    } else {
      var n := |b| - 1;
      TotalAppend(a, b[..n]);
      assert (a + b)[..|a + b| - 1] == a + b[..n];
    }
  }

  lemma TotalOfFour(a: seq<GasShare>, x: GasShare, b: seq<GasShare>, y: GasShare)
    ensures Total(a + [x] + b + [y]) == Total(a) + x.percent + Total(b) + y.percent
  {
    TotalAppend(a + [x] + b, [y]);
    TotalAppend(a + [x], b);
    TotalAppend(a, [x]);
  }

  method BuildEarthLikeAtmosphere(rng: PRNG) returns (gases: seq<GasShare>)
    modifies rng
    ensures (gases, rng.tape) == EarthAirOn(old(rng.tape))
  {
    hide MaybeGasOn;
    gases := [];
    var total := 0;
    var pct;
    gases, pct := AppendMaybe(rng, gases, NH3);
    ghost var nh3 := MaybeGasOn(old(rng.tape), NH3);
    assert gases == nh3.0;
    total := total + pct;
    var nitroIndex := |gases|;
    gases := gases + [GasShare(N2, 0)];
    gases, pct := AppendMaybe(rng, gases, CO2);
    ghost var co2 := MaybeGasOn(nh3.1, CO2).0;
    total := total + pct;
    var o2Pct := rng.Roll(1, 20);
    o2Pct := o2Pct + 10;
    gases := gases + [GasShare(O2, o2Pct)];
    total := total + o2Pct;
    NitrogenFilled(nh3.0, 100 - total, co2, GasShare(O2, o2Pct));
    gases := gases[nitroIndex := gases[nitroIndex].(percent := 100 - total)];
  }

  /** Replacing the nitrogen placeholder leaves its neighbours. */
  lemma NitrogenFilled(a: seq<GasShare>, n2: int, b: seq<GasShare>, y: GasShare)
    ensures var s := a + [GasShare(N2, 0)] + b + [y];
            s[|a|] == GasShare(N2, 0) && s[|a| := s[|a|].(percent := n2)] == a + [GasShare(N2, n2)] + b + [y]
  {
  }

  /** The block that appends a gas one time in three. */
  method AppendMaybe(rng: PRNG, before: seq<GasShare>, gas: Gas) returns (gases: seq<GasShare>, pct: int)
    modifies rng
    ensures gases == before + MaybeGasOn(old(rng.tape), gas).0
    ensures pct == Total(MaybeGasOn(old(rng.tape), gas).0)
    ensures rng.tape == MaybeGasOn(old(rng.tape), gas).1
  {
    gases, pct := before, 0;
    var coin := rng.Roll(1, 3);
    if coin == 1 {
      pct := rng.Roll(1, 30);
      gases := gases + [GasShare(gas, pct)];
      assert Total([GasShare(gas, pct)]) == pct;
    }
  }

  /** The rolled mix of a world that is not earth-like. */
  function OtherAirOn(t: Tape, tc: int): (r: (seq<GasShare>, Tape)) {
    var (a, t1) := RollOn(t, 1, 4);
    var (b, t2) := RollOn(t1, 1, 4);
    var (picked, t3) := PickOn(t2, FirstGas(tc), (a + b) / 2, tc, false);
    PickPicks(t2, FirstGas(tc), (a + b) / 2, tc, false);
    PicksNormalizeToMix(picked, FirstGas(tc), FirstGas(tc) + 4, tc);
    (Normalized(picked), t3)
  }

  lemma OtherAirIsMix(t: Tape, tc: int)
    ensures var s := OtherAirOn(t, tc).0;
            IsMix(s) && forall i :: 0 <= i < |s| && s[i].gas == HE ==> tc <= 5
  {
    hide PickOn, Normalized;
    var (a, t1) := RollOn(t, 1, 4);
    var (b, t2) := RollOn(t1, 1, 4);
    var (picked, t3) := PickOn(t2, FirstGas(tc), (a + b) / 2, tc, false);
    PickPicks(t2, FirstGas(tc), (a + b) / 2, tc, false);
    PicksNormalizeToMix(picked, FirstGas(tc), FirstGas(tc) + 4, tc);
  }

  /** The inner loop's rolls for one gas; 0 when it is passed over. */
  method TryGas(rng: PRNG, g: Gas, tc: int) returns (qty: int)
    modifies rng
    ensures (qty, rng.tape) == TryGasOn(old(rng.tape), g, tc, false)
  {
    if g == HE {
      var skip := rng.Roll(1, 3);
      if skip > 1 {
        return 0;
      }
      if tc > 5 {
        return 0;
      }
      qty := rng.Roll(1, 20);
    } else {
      var skip := rng.Roll(1, 3);
      if skip == 3 {
        return 0;
      }
      if g == O2 {
        qty := rng.Roll(1, 50);
      } else {
        qty := rng.Roll(1, 100);
      }
    }
  }

  /** One turn of a template pass. */
  lemma PassTurn(t: Tape, gas: Gas, last: Gas, picked: seq<GasShare>, wanted: int, tc: int)
    ensures gas > last || |picked| == wanted ==> PassOn(t, gas, last, picked, wanted, tc, false) == (picked, t)
    ensures var (qty, t1) := TryGasOn(t, gas, tc, false);
            !(gas > last || |picked| == wanted) ==>
              PassOn(t, gas, last, picked, wanted, tc, false)
              == PassOn(t1, gas + 1, last, if qty > 0 then picked + [GasShare(gas, qty)] else picked, wanted, tc, false)
  {
    hide TryGasOn;
  }

  /** One pass over the window, keeping the running total. */
  method PickGases(rng: PRNG, firstGas: Gas, numWanted: int, tc: int) returns (picked: seq<GasShare>, totalQty: int)
    requires numWanted >= 1
    modifies rng
    ensures (picked, rng.tape) == PassOn(old(rng.tape), firstGas, firstGas + 4, [], numWanted, tc, false)
    ensures totalQty == Total(picked)
  {
    hide PassOn, TryGasOn;
    picked, totalQty := [], 0;
    ghost var target := PassOn(rng.tape, firstGas, firstGas + 4, [], numWanted, tc, false);
    var gasID := firstGas;
    while gasID <= firstGas + 4
      invariant PassOn(rng.tape, gasID, firstGas + 4, picked, numWanted, tc, false) == target
      invariant totalQty == Total(picked)
      decreases firstGas + 4 - gasID
    {
      PassTurn(rng.tape, gasID, firstGas + 4, picked, numWanted, tc);
      if |picked| == numWanted {
        break;
      }
      var qty := TryGas(rng, gasID, tc);
      if qty > 0 {
        assert (picked + [GasShare(gasID, qty)])[..|picked|] == picked;
        picked := picked + [GasShare(gasID, qty)];
        totalQty := totalQty + qty;
      }
      gasID := gasID + 1;
    }
    PassTurn(rng.tape, gasID, firstGas + 4, picked, numWanted, tc);
  }

  /** Percentages in place; the first gas takes what rounding left over. */
  method NormalizeSlice(quantities: seq<GasShare>, totalQty: int) returns (picked: seq<GasShare>)
    requires quantities != [] && totalQty == Total(quantities) > 0
    ensures picked == Normalized(quantities)
  {
    var totalPct;
    picked, totalPct := ToPercent(quantities, totalQty);
    picked := picked[0 := picked[0].(percent := picked[0].percent + 100 - totalPct)];
  }

  method ToPercent(quantities: seq<GasShare>, totalQty: int) returns (picked: seq<GasShare>, totalPct: int)
    requires totalQty > 0
    ensures picked == Shares(quantities, totalQty) && totalPct == Total(picked)
  {
    hide Share, Total;
    assert Total([]) == 0 by { TotalOfNone(); }
    picked, totalPct := quantities, 0;
    ghost var target := Shares(quantities, totalQty);
    var i := 0;
    while i < |picked|
      invariant 0 <= i <= |picked| == |quantities|
      invariant forall k :: 0 <= k < i ==> picked[k] == target[k]
      invariant forall k :: i <= k < |picked| ==> picked[k] == quantities[k]
      invariant totalPct == Total(target[..i])
    {
      TotalPrefix(target, i);
      var pct := Share(quantities[i].percent, totalQty);
      picked := picked[i := picked[i].(percent := pct)];
      totalPct := totalPct + pct;
      i := i + 1;
    }
    assert target[..i] == target && picked == target;
  }

  lemma TotalPrefix(s: seq<GasShare>, i: nat)
    requires i < |s|
    ensures Total(s[..i + 1]) == Total(s[..i]) + s[i].percent
  {
    assert s[..i + 1][..i] == s[..i];
  }

  lemma TotalOfNone()
    ensures Total([]) == 0
  {
  }

  /** Passes until one finds a gas. */
  method PickSome(rng: PRNG, firstGas: Gas, numWanted: int, tc: int) returns (picked: seq<GasShare>, totalQty: int)
    requires numWanted >= 1
    modifies rng
    ensures (picked, rng.tape) == PickOn(old(rng.tape), firstGas, numWanted, tc, false)
    ensures totalQty == Total(picked)
  {
    hide PassOn;
    ghost var target := PickOn(rng.tape, firstGas, numWanted, tc, false);
    picked := [];
    totalQty := 0;
    while |picked| == 0
      invariant totalQty == Total(picked)
      invariant picked == [] ==> PickOn(rng.tape, firstGas, numWanted, tc, false) == target
      invariant picked != [] ==> (picked, rng.tape) == target
      decreases |rng.tape|, if picked == [] then 1 else 0
    {
      picked, totalQty := PickGases(rng, firstGas, numWanted, tc);
    }
  }

  method RollNonEarthAtmosphere(rng: PRNG, tc: int) returns (picked: seq<GasShare>)
    modifies rng
    ensures (picked, rng.tape) == OtherAirOn(old(rng.tape), tc)
  {
    hide PickOn, Normalized, Total;
    var firstGas := (100 * tc) / 225;
    if firstGas < 1 {
      firstGas := 1;
    } else if firstGas > 9 {
      firstGas := 9;
    }
    var a := rng.Roll(1, 4);
    var b := rng.Roll(1, 4);
    var numWanted := (a + b) / 2;
    PickPicks(rng.tape, firstGas, numWanted, tc, false);
    var totalQty;
    picked, totalQty := PickSome(rng, firstGas, numWanted, tc);
    PicksNormalizeToMix(picked, firstGas, firstGas + 4, tc);
    picked := NormalizeSlice(picked, totalQty);
  }

  // ----- mining difficulty -----

  function MiningTryOn(t: Tape, diameter: int): (r: (int, Tape))
    ensures t != [] ==> |r.1| < |t|
    ensures t == [] ==> r.1 == []
  {
    var (a, t1) := RollOn(t, 1, 3);
    var (b, t2) := RollOn(t1, 1, 3);
    var (c, t3) := RollOn(t2, 1, 3);
    var (d, t4) := RollOn(t3, 1, 4);
    var (e, t5) := RollOn(t4, 1, diameter);
    var (f, t6) := RollOn(t5, 1, 20);
    var (g, t7) := RollOn(t6, 1, 20);
    ((a + b + c - d) * e + (f + g), t7)
  }

  /** Roll until the value is in 30..1000. */
  function MiningOn(t: Tape, diameter: int): (r: (int, Tape))
    requires diameter >= 1
    ensures 30 <= r.0 <= 1000
    decreases |t|
  {
    var (v, t1) := MiningTryOn(t, diameter);
    if 30 <= v <= 1000 then (v, t1)
    else
      CalmMiningAccepted(diameter);
      MiningOn(t1, diameter)
  }

  /** An accepting roll always exists: calm draws give 37..94. */
  lemma CalmMiningAccepted(diameter: int)
    requires diameter >= 1
    ensures 37 <= MiningTryOn([], diameter).0 <= 94
  {
    var (e, t5) := RollOn([], 1, diameter);
    assert e == 1 + 57 % diameter;
    RemainderAtMost(57, diameter);
  }

  lemma RemainderAtMost(a: nat, n: int)
    requires n >= 1
    ensures 0 <= a % n <= a
  {
    assert a == n * (a / n) + a % n;
  }

  method MiningTry(rng: PRNG, diameter: int) returns (val: int)
    modifies rng
    ensures (val, rng.tape) == MiningTryOn(old(rng.tape), diameter)
  {
    var a := rng.Roll(1, 3);
    var b := rng.Roll(1, 3);
    var c := rng.Roll(1, 3);
    var d := rng.Roll(1, 4);
    var e := rng.Roll(1, diameter);
    val := (a + b + c - d) * e;
    var f := rng.Roll(1, 20);
    var g := rng.Roll(1, 20);
    val := val + (f + g);
  }

  method RollMining(rng: PRNG, diameter: int) returns (val: int)
    requires diameter >= 1
    modifies rng
    ensures (val, rng.tape) == MiningOn(old(rng.tape), diameter)
  {
    hide MiningTryOn;
    val := MiningTry(rng, diameter);
    while !(val >= 30 && val <= 1000)
      invariant MiningOn(old(rng.tape), diameter)
             == if 30 <= val <= 1000 then (val, rng.tape) else MiningOn(rng.tape, diameter)
      decreases |rng.tape|, if 30 <= val <= 1000 then 0 else 1
    {
      CalmMiningAccepted(diameter);
      val := MiningTry(rng, diameter);
    }
  }

  // ----- one planet -----

  /** The earth-like override replaces every prior value. */
  function EarthLikeOn(t: Tape): (r: (TemplatePlanet, Tape)) {
    var (a, t1) := RollOn(t, 1, 3);
    var (b, t2) := RollOn(t1, 1, 11);
    var (c, t3) := RollOn(t2, 1, 11);
    var (d, t4) := RollOn(t3, 1, 5);
    var (e, t5) := RollOn(t4, 1, 3);
    var (f, t6) := RollOn(t5, 1, 3);
    var (g, t7) := RollOn(t6, 1, 11);
    var (h, t8) := RollOn(t7, 1, 11);
    var (air, t9) := EarthAirOn(t8);
    (TemplatePlanet(KindFromDiameter(11 + a), 11 + a, 93 + b + c + d, 9 + e, 8 + f, 208 + g + h, air, 1), t9)
  }

  /** The steps that complete any other planet. */
  function OrdinaryOn(t: Tape, kind: PlanetKind, diameter: int, gravity: int, tc: int): (r: (TemplatePlanet, Tape))
    requires diameter >= 1
  {
    var (rolled, t1) := PressureOn(t, gravity / 10, kind == GasGiant);
    var pressure := if gravity < 10 || tc < 2 || tc > 27 then 0 else rolled;
    var (air, t2) := if pressure > 0 then OtherAirOn(t1, tc) else ([], t1);
    var (mining, t3) := MiningOn(t2, diameter);
    (TemplatePlanet(kind, diameter, gravity, tc, pressure, mining, air, 0), t3)
  }

  /** `previous` is the temperature class of the planet inside this one. */
  function Ordered(previous: Option<int>, tc: int): (r: int) {
    if previous.Some? && previous.value < tc then previous.value else tc
  }

  /** A planet as it reaches the override. */
  datatype Body = Body(kind: PlanetKind, diameter: int, gravity: int, tc: int)

  function BodyOn(t: Tape, numPlanets: int, orbit: int, previous: Option<int>): (r: (Body, Tape))
    requires 1 <= orbit <= numPlanets <= 9
    ensures r.0.diameter >= 3
  {
    var seed := SeedIndex(numPlanets, orbit);
    var (diameter, t1) := DiameterOn(t, START_DIAMETER[seed]);
    var kind := KindFromDiameter(diameter);
    var (density, t2) := DensityOn(t1, kind == GasGiant);
    var gravity := density * diameter / 72;
    var (hot, t3) := TemperatureOn(t2, START_TEMPERATURE[seed], kind == GasGiant, 3, Warmed(numPlanets, orbit));
    (Body(kind, diameter, gravity, Ordered(previous, hot)), t3)
  }

  function TemplatePlanetOn(t: Tape, numPlanets: int, orbit: int, previous: Option<int>, consumed: bool)
    : (r: (TemplatePlanet, Tape))
    requires 1 <= orbit <= numPlanets <= 9
  {
    var (b, t1) := BodyOn(t, numPlanets, orbit, previous);
    if !consumed && b.tc <= 11 then EarthLikeOn(t1) else OrdinaryOn(t1, b.kind, b.diameter, b.gravity, b.tc)
  }

  method RollEarthLike(rng: PRNG) returns (tp: TemplatePlanet)
    modifies rng
    ensures (tp, rng.tape) == EarthLikeOn(old(rng.tape))
  {
    hide EarthAirOn;
    var a := rng.Roll(1, 3);
    var diameter := 11 + a;
    var kind := KindFromDiameter(diameter);
    var b := rng.Roll(1, 11);
    var c := rng.Roll(1, 11);
    var d := rng.Roll(1, 5);
    var e := rng.Roll(1, 3);
    var f := rng.Roll(1, 3);
    var g := rng.Roll(1, 11);
    var h := rng.Roll(1, 11);
    var air := BuildEarthLikeAtmosphere(rng);
    tp := TemplatePlanet(kind, diameter, 93 + b + c + d, 9 + e, 8 + f, 208 + g + h, air, 1);
  }

  method RollOrdinary(rng: PRNG, kind: PlanetKind, diameter: int, gravity: int, tc: int) returns (tp: TemplatePlanet)
    requires diameter >= 1
    modifies rng
    ensures (tp, rng.tape) == OrdinaryOn(old(rng.tape), kind, diameter, gravity, tc)
  {
    hide PressureOn, OtherAirOn, MiningOn;
    var pressure := RollPressure(rng, gravity / 10, kind == GasGiant);
    if gravity < 10 || tc < 2 || tc > 27 {
      pressure := 0;
    }
    var air: seq<GasShare> := [];
    if pressure > 0 {
      air := RollNonEarthAtmosphere(rng, tc);
    }
    var mining := RollMining(rng, diameter);
    tp := TemplatePlanet(kind, diameter, gravity, tc, pressure, mining, air, 0);
  }

  method RollTemplatePlanet(rng: PRNG, numPlanets: int, orbit: int, previous: Option<int>, consumed: bool)
    returns (tp: TemplatePlanet)
    requires 1 <= orbit <= numPlanets <= 9
    modifies rng
    ensures (tp, rng.tape) == TemplatePlanetOn(old(rng.tape), numPlanets, orbit, previous, consumed)
  {
    hide DiameterOn, DensityOn, TemperatureOn, EarthLikeOn, OrdinaryOn;
    var baseValue;
    if numPlanets <= 3 {
      baseValue := 2 * orbit + 1;
    } else {
      baseValue := (9 * orbit) / numPlanets;
    }
    assert baseValue == SeedIndex(numPlanets, orbit);
    if baseValue < 1 {
      baseValue := 1;
    } else if baseValue >= |START_DIAMETER| {
      baseValue := |START_DIAMETER| - 1;
    }
    var diameter := RollDiameter(rng, START_DIAMETER[baseValue]);
    var kind := KindFromDiameter(diameter);
    var isGasGiant := kind == GasGiant;
    var density := RollDensity(rng, isGasGiant);
    var gravity := (density * diameter) / 72;
    var tc := RollTemperature(rng, START_TEMPERATURE[baseValue], isGasGiant, 3, numPlanets < 4 && orbit <= 2);
    if previous.Some? && previous.value < tc {
      tc := previous.value;
    }
    if !consumed && tc <= 11 {
      tp := RollEarthLike(rng);
    } else {
      tp := RollOrdinary(rng, kind, diameter, gravity, tc);
    }
  }

  // ----- one attempt -----

  /** The planets from `orbit` outward; `consumed` says the override fired. */
  function PlanetsOn(t: Tape, numPlanets: int, orbit: int, previous: Option<int>, consumed: bool)
    : (r: (seq<TemplatePlanet>, Tape))
    requires 1 <= orbit <= numPlanets + 1 <= 10
    decreases numPlanets - orbit
  {
    if orbit > numPlanets then ([], t)
    else
      var (p, t1) := TemplatePlanetOn(t, numPlanets, orbit, previous, consumed);
      var (rest, t2) := PlanetsOn(t1, numPlanets, orbit + 1, Some(p.temperatureClass), consumed || p.special == 1);
      ([p] + rest, t2)
  }

  lemma PlanetsTurn(t: Tape, n: int, orbit: int, previous: Option<int>, consumed: bool, before: seq<TemplatePlanet>)
    requires 1 <= orbit <= n <= 9
    ensures var (p, t1) := TemplatePlanetOn(t, n, orbit, previous, consumed);
            var all := PlanetsOn(t, n, orbit, previous, consumed);
            var rest := PlanetsOn(t1, n, orbit + 1, Some(p.temperatureClass), consumed || p.special == 1);
            before + all.0 == before + [p] + rest.0 && all.1 == rest.1
  {
    hide TemplatePlanetOn;
    var (p, t1) := TemplatePlanetOn(t, n, orbit, previous, consumed);
    var rest := PlanetsOn(t1, n, orbit + 1, Some(p.temperatureClass), consumed || p.special == 1).0;
    assert before + ([p] + rest) == before + [p] + rest;
  }

  method RollPlanets(rng: PRNG, numPlanets: int) returns (planets: seq<TemplatePlanet>)
    requires 1 <= numPlanets <= 9
    modifies rng
    ensures (planets, rng.tape) == PlanetsOn(old(rng.tape), numPlanets, 1, None, false)
  {
    hide TemplatePlanetOn;
    planets := [];
    ghost var target := PlanetsOn(rng.tape, numPlanets, 1, None, false);
    var earthLikeConsumed := false;
    var previousTC: Option<int> := None;
    var orbit := 1;
    while orbit <= numPlanets
      invariant 1 <= orbit <= numPlanets + 1
      invariant planets + PlanetsOn(rng.tape, numPlanets, orbit, previousTC, earthLikeConsumed).0 == target.0
      invariant PlanetsOn(rng.tape, numPlanets, orbit, previousTC, earthLikeConsumed).1 == target.1
    {
      PlanetsTurn(rng.tape, numPlanets, orbit, previousTC, earthLikeConsumed, planets);
      var tp := RollTemplatePlanet(rng, numPlanets, orbit, previousTC, earthLikeConsumed);
      planets := planets + [tp];
      if tp.special == 1 {
        earthLikeConsumed := true;
      }
      previousTC := Some(tp.temperatureClass);
      orbit := orbit + 1;
    }
    assert planets + [] == planets;
  }

  // ----- what an attempt satisfies -----

  ghost predicate SoundPlanet(p: TemplatePlanet) {
    && p.diameter >= 3 && p.kind == KindFromDiameter(p.diameter)
    && (p.special == 0 || p.special == 1)
    && (p.special == 1 ==>
          && p.kind == Rocky && 10 <= p.temperatureClass <= 12 && 9 <= p.pressureClass <= 11
          && 210 <= p.mining <= 230 && IsEarthAir(p.atmosphere))
    && (p.special == 0 ==>
          && 30 <= p.mining <= 1000 && 0 <= p.pressureClass <= 29
          && (if p.pressureClass == 0 then p.atmosphere == [] else IsMix(p.atmosphere))
          && (forall i :: 0 <= i < |p.atmosphere| && p.atmosphere[i].gas == HE ==> p.temperatureClass <= 5))
    && (p.kind == GasGiant ==> p.temperatureClass <= 7)
  }

  ghost predicate NeverWarmer(ps: seq<TemplatePlanet>) {
    forall i, j :: 0 <= i < j < |ps| ==> ps[i].temperatureClass >= ps[j].temperatureClass
  }

  /** Planet i is the only special one, and nothing inside it is cool. */
  ghost predicate IsHome(ps: seq<TemplatePlanet>, i: int) {
    && 0 <= i < |ps| && ps[i].special == 1
    && (forall j :: 0 <= j < |ps| && j != i ==> ps[j].special == 0)
    && (forall j :: 0 <= j < i ==> ps[j].temperatureClass >= 12)
  }

  ghost predicate NoSpecial(ps: seq<TemplatePlanet>) {
    forall i :: 0 <= i < |ps| ==> ps[i].special == 0
  }

  /** Every gas giant is strictly outside a special planet. */
  ghost predicate GiantsOutside(ps: seq<TemplatePlanet>) {
    forall i :: 0 <= i < |ps| && ps[i].kind == GasGiant ==> exists j :: 0 <= j < i && ps[j].special == 1
  }

  /** What the override and the ordering rule leave between the planets;
      `consumed` says the override fired further in. */
  ghost predicate Arranged(ps: seq<TemplatePlanet>, consumed: bool) {
    && NeverWarmer(ps)
    && (consumed ==> NoSpecial(ps))
    && (!consumed ==>
          && GiantsOutside(ps)
          && ((exists i :: IsHome(ps, i))
              || (NoSpecial(ps) && forall i :: 0 <= i < |ps| ==> ps[i].temperatureClass >= 12)))
  }

  lemma EarthLikeIsSound(t: Tape)
    ensures SoundPlanet(EarthLikeOn(t).0) && EarthLikeOn(t).0.special == 1
  {
    hide EarthAirOn;
    var (a, t1) := RollOn(t, 1, 3);
    var (b, t2) := RollOn(t1, 1, 11);
    var (c, t3) := RollOn(t2, 1, 11);
    var (d, t4) := RollOn(t3, 1, 5);
    var (e, t5) := RollOn(t4, 1, 3);
    var (f, t6) := RollOn(t5, 1, 3);
    var (g, t7) := RollOn(t6, 1, 11);
    var (h, t8) := RollOn(t7, 1, 11);
    EarthAirIsMix(t8);
  }

  lemma OrdinaryIsSound(t: Tape, kind: PlanetKind, diameter: int, gravity: int, tc: int)
    requires diameter >= 3 && kind == KindFromDiameter(diameter) && (kind == GasGiant ==> tc <= 7)
    ensures var p := OrdinaryOn(t, kind, diameter, gravity, tc).0;
            SoundPlanet(p) && p.special == 0 && p.temperatureClass == tc && p.kind == kind
  {
    hide PressureOn, OtherAirOn, MiningOn;
    var (rolled, t1) := PressureOn(t, gravity / 10, kind == GasGiant);
    OtherAirIsMix(t1, tc);
  }

  lemma TemplatePlanetIsSound(t: Tape, numPlanets: int, orbit: int, previous: Option<int>, consumed: bool)
    requires 1 <= orbit <= numPlanets <= 9
    requires !consumed && previous.Some? ==> previous.value >= 12
    ensures var p := TemplatePlanetOn(t, numPlanets, orbit, previous, consumed).0;
            && SoundPlanet(p)
            && (previous.Some? ==> p.temperatureClass <= previous.value)
            && (p.special == 0 || (p.special == 1 && !consumed))
            && (!consumed ==> p.kind == Rocky && (p.special == 0 ==> p.temperatureClass >= 12))
  {
    hide BodyOn, EarthLikeOn, OrdinaryOn;
    var (b, t1) := BodyOn(t, numPlanets, orbit, previous);
    BodyIsSound(t, numPlanets, orbit, previous);
    EarthLikeIsSound(t1);
    OrdinaryIsSound(t1, b.kind, b.diameter, b.gravity, b.tc);
  }

  lemma BodyIsSound(t: Tape, numPlanets: int, orbit: int, previous: Option<int>)
    requires 1 <= orbit <= numPlanets <= 9
    ensures var b := BodyOn(t, numPlanets, orbit, previous).0;
            && b.diameter >= 3 && b.kind == KindFromDiameter(b.diameter)
            && (b.kind == GasGiant ==> b.tc <= 7)
            && (previous.Some? ==> b.tc <= previous.value)
            && (Warmed(numPlanets, orbit) && (previous.Some? ==> previous.value >= 12) ==> b.tc >= 12)
  {
    hide DiameterOn, DensityOn, TemperatureOn;
    if Warmed(numPlanets, orbit) {
      WarmedIsRocky(t, numPlanets, orbit);
    }
  }

  /** The class that reaches the override is at least 12 at every orbit from
      `orbit` on. */
  predicate AllWarm(t: Tape, n: int, orbit: int, previous: Option<int>)
    requires 1 <= orbit <= n + 1 <= 10
    decreases n - orbit
  {
    orbit > n
    || (var (b, _) := BodyOn(t, n, orbit, previous);
        && b.tc >= 12
        && AllWarm(TemplatePlanetOn(t, n, orbit, previous, false).1, n, orbit + 1, Some(b.tc)))
  }

  /** An attempt has no home planet exactly when every class reaching the
      override is at least 12. */
  lemma {:induction false} NoHomeIffAllWarm(t: Tape, n: int, orbit: int, previous: Option<int>)
    requires 1 <= orbit <= n + 1 <= 10
    ensures NoSpecial(PlanetsOn(t, n, orbit, previous, false).0) <==> AllWarm(t, n, orbit, previous)
    decreases n - orbit
  {
    hide BodyOn, EarthLikeOn, OrdinaryOn;
    if orbit <= n {
      var (b, t1) := BodyOn(t, n, orbit, previous);
      var (p, t2) := TemplatePlanetOn(t, n, orbit, previous, false);
      OverrideIff(t, n, orbit, previous);
      var rest := PlanetsOn(t2, n, orbit + 1, Some(p.temperatureClass), p.special == 1).0;
      assert PlanetsOn(t, n, orbit, previous, false).0 == [p] + rest;
      NoSpecialCons(p, rest);
      if b.tc >= 12 {
        NoHomeIffAllWarm(t2, n, orbit + 1, Some(b.tc));
      }
    }
  }

  lemma NoSpecialCons(p: TemplatePlanet, rest: seq<TemplatePlanet>)
    ensures NoSpecial([p] + rest) <==> p.special == 0 && NoSpecial(rest)
  {
    var ps := [p] + rest;
    assert forall i :: 0 < i < |ps| ==> ps[i] == rest[i - 1];
    assert ps[0] == p;
    if NoSpecial(ps) {
      assert forall i :: 0 <= i < |rest| ==> rest[i] == ps[i + 1];
    }
  }

  lemma OverrideIff(t: Tape, n: int, orbit: int, previous: Option<int>)
    requires 1 <= orbit <= n <= 9
    ensures var p, b := TemplatePlanetOn(t, n, orbit, previous, false).0, BodyOn(t, n, orbit, previous).0;
            if b.tc >= 12 then p.special == 0 && p.temperatureClass == b.tc else p.special == 1
  {
    hide BodyOn, EarthLikeOn;
    EarthLikeIsSound(BodyOn(t, n, orbit, previous).1);
  }

  lemma ArrangedCons(p: TemplatePlanet, rest: seq<TemplatePlanet>, consumed: bool)
    requires p.special == 0 || (p.special == 1 && !consumed)
    requires !consumed ==> p.kind == Rocky && (p.special == 0 ==> p.temperatureClass >= 12)
    requires Arranged(rest, consumed || p.special == 1)
    requires forall i :: 0 <= i < |rest| ==> rest[i].temperatureClass <= p.temperatureClass
    ensures Arranged([p] + rest, consumed)
  {
    var ps := [p] + rest;
    assert forall i :: 0 < i < |ps| ==> ps[i] == rest[i - 1];
    if !consumed {
      GiantsCons(p, rest);
      if p.special == 1 {
        assert IsHome(ps, 0);
      } else if exists i :: IsHome(rest, i) {
        var i :| IsHome(rest, i);
        assert IsHome(ps, i + 1);
      }
    }
  }

  lemma GiantsCons(p: TemplatePlanet, rest: seq<TemplatePlanet>)
    requires p.kind == Rocky && (p.special == 1 || GiantsOutside(rest))
    ensures GiantsOutside([p] + rest)
  {
    var ps := [p] + rest;
    forall i | 0 <= i < |ps| && ps[i].kind == GasGiant ensures exists j :: 0 <= j < i && ps[j].special == 1 {
      if p.special == 1 {
        assert ps[0].special == 1;
      } else {
        var j :| 0 <= j < i - 1 && rest[j].special == 1;
        assert ps[j + 1].special == 1;
      }
    }
  }

  lemma {:induction false} PlanetsAreSound(t: Tape, n: int, orbit: int, previous: Option<int>, consumed: bool)
    requires 1 <= orbit <= n + 1 <= 10
    requires !consumed && previous.Some? ==> previous.value >= 12
    ensures var ps := PlanetsOn(t, n, orbit, previous, consumed).0;
            && |ps| == n + 1 - orbit
            && (forall i :: 0 <= i < |ps| ==> SoundPlanet(ps[i]))
            && Arranged(ps, consumed)
            && (previous.Some? ==> forall i :: 0 <= i < |ps| ==> ps[i].temperatureClass <= previous.value)
    decreases n - orbit
  {
    hide TemplatePlanetOn, SoundPlanet;
    if orbit <= n {
      var (p, t1) := TemplatePlanetOn(t, n, orbit, previous, consumed);
      TemplatePlanetIsSound(t, n, orbit, previous, consumed);
      PlanetsAreSound(t1, n, orbit + 1, Some(p.temperatureClass), consumed || p.special == 1);
      var rest := PlanetsOn(t1, n, orbit + 1, Some(p.temperatureClass), consumed || p.special == 1).0;
      ArrangedCons(p, rest, consumed);
      assert PlanetsOn(t, n, orbit, previous, consumed).0 == [p] + rest;
    } else {
      assert PlanetsOn(t, n, orbit, previous, consumed).0 == [];
    }
  }
}
