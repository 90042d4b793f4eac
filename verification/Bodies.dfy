/**
 The dice phases that planets of a cluster and planets of a home-star template
 share: diameter, density, temperature and pressure, each a start value that is
 randomised and then clamped by random steps.
 */
module Bodies {
  import opened Arithmetic
  import opened Prng

  datatype PlanetKind = Rocky | GasGiant | AsteroidBelt

  function KindFromDiameter(diameter: int): (k: PlanetKind) {
    if diameter > 40 then GasGiant else Rocky
  }

  /** Index 0 is unused; indices 1..9 seed a planet. */
  const START_DIAMETER: seq<int> := [0, 5, 12, 13, 7, 20, 143, 121, 51, 49]
  const START_TEMPERATURE: seq<int> := [0, 29, 27, 11, 9, 8, 6, 5, 5, 3]

  /** Where orbit `orbit` of `numPlanets` starts in the seed tables. */
  function SeedIndex(numPlanets: int, orbit: int): (i: int)
    requires 1 <= orbit <= numPlanets <= 9
    ensures 1 <= i <= 9
  {
    if numPlanets <= 3 then 2 * orbit + 1 else
      QuotientBetween(9 * orbit, numPlanets, 1, 9);
      9 * orbit / numPlanets
  }

  function DieFor(v: int): (die: int)
    ensures die >= 2
  {
    if v / 4 < 2 then 2 else v / 4
  }

  // ----- random walks and clamps -----

  /** n steps of 1..die, each up or down. */
  function WobbleOn(t: Tape, v: int, die: int, n: int): (r: (int, Tape))
    requires die >= 1
    ensures |r.1| <= |t|
    decreases n
  {
    if n <= 0 then (v, t)
    else
      var (delta, t1) := RollOn(t, 1, die);
      var (coin, t2) := RollOn(t1, 1, 100);
      WobbleOn(t2, if coin > 50 then v + delta else v - delta, die, n - 1)
  }

  lemma {:induction false} WobbleRange(t: Tape, v: int, die: int, n: nat)
    requires die >= 1
    ensures v - n * die <= WobbleOn(t, v, die, n).0 <= v + n * die
    decreases n
  {
    if n > 0 {
      var (delta, t1) := RollOn(t, 1, die);
      var (coin, t2) := RollOn(t1, 1, 100);
      WobbleRange(t2, if coin > 50 then v + delta else v - delta, die, n - 1);
      assert n * die == (n - 1) * die + die;
    }
  }

  /** The first draw is the length of a step, half of the second ones send it up. */
  lemma WobbleByDraws(a: nat, b: nat, rest: Tape, v: int, die: int, n: int)
    requires die >= 1 && n >= 1
    ensures var step := 1 + a % die;
            WobbleOn([a] + ([b] + rest), v, die, n)
            == WobbleOn(rest, if b % 100 >= 50 then v + step else v - step, die, n - 1)
  {
    hide WobbleOn;
    WobbleTurn([a] + ([b] + rest), v, die, n);
    RollByDraw(a, [b] + rest, 1, die);
    RollByDraw(b, rest, 1, 100);
  }

  lemma WobbleTurn(t: Tape, v: int, die: int, n: int)
    requires die >= 1 && n >= 1
    ensures var (delta, t1) := RollOn(t, 1, die);
            var (coin, t2) := RollOn(t1, 1, 100);
            WobbleOn(t, v, die, n) == WobbleOn(t2, if coin > 50 then v + delta else v - delta, die, n - 1)
  {
    hide RollOn;
  }

  /** Random steps up to at least `min`: no overshoot of a whole die. */
  function RaiseOn(t: Tape, v: int, min: int, die: int): (r: (int, Tape))
    requires die >= 1
    ensures v >= min ==> r == (v, t)
    ensures v < min ==> min <= r.0 < min + die
    ensures |r.1| <= |t|
    decreases min - v
  {
    if v >= min then (v, t)
    else
      var (x, t1) := RollOn(t, 1, die);
      RaiseOn(t1, v + x, min, die)
  }

  function LowerOn(t: Tape, v: int, max: int, die: int): (r: (int, Tape))
    requires die >= 1
    ensures v <= max ==> r == (v, t)
    ensures v > max ==> max - die < r.0 <= max
    ensures |r.1| <= |t|
    decreases v - max
  {
    if v <= max then (v, t)
    else
      var (x, t1) := RollOn(t, 1, die);
      LowerOn(t1, v - x, max, die)
  }

  function ClampOn(t: Tape, v: int, min: int, max: int, die: int): (r: (int, Tape))
    requires 1 <= die <= max - min + 1
    ensures min <= r.0 <= max
    ensures |r.1| <= |t|
  {
    var (v1, t1) := RaiseOn(t, v, min, die);
    LowerOn(t1, v1, max, die)
  }

  method Wobble(rng: PRNG, v: int, die: int, n: int) returns (w: int)
    requires die >= 1
    modifies rng
    ensures (w, rng.tape) == WobbleOn(old(rng.tape), v, die, n)
  {
    w := v;
    var left := n;
    while left > 0
      invariant WobbleOn(rng.tape, w, die, left) == WobbleOn(old(rng.tape), v, die, n)
    {
      var delta := rng.Roll(1, die);
      var coin := rng.Roll(1, 100);
      if coin > 50 {
        w := w + delta;
      } else {
        w := w - delta;
      }
      left := left - 1;
    }
  }

  method Raise(rng: PRNG, v: int, min: int, die: int) returns (w: int)
    requires die >= 1
    modifies rng
    ensures (w, rng.tape) == RaiseOn(old(rng.tape), v, min, die)
  {
    w := v;
    while w < min
      invariant RaiseOn(rng.tape, w, min, die) == RaiseOn(old(rng.tape), v, min, die)
    {
      var x := rng.Roll(1, die);
      w := w + x;
    }
  }

  method Lower(rng: PRNG, v: int, max: int, die: int) returns (w: int)
    requires die >= 1
    modifies rng
    ensures (w, rng.tape) == LowerOn(old(rng.tape), v, max, die)
  {
    w := v;
    while w > max
      invariant LowerOn(rng.tape, w, max, die) == LowerOn(old(rng.tape), v, max, die)
    {
      var x := rng.Roll(1, die);
      w := w - x;
    }
  }

  method Clamp(rng: PRNG, v: int, min: int, max: int, die: int) returns (w: int)
    requires 1 <= die <= max - min + 1
    modifies rng
    ensures (w, rng.tape) == ClampOn(old(rng.tape), v, min, max, die)
  {
    w := Raise(rng, v, min, die);
    w := Lower(rng, w, max, die);
  }

  // ----- the phases -----

  /** Four wobbles of a quarter of the start, then up to at least 3. */
  function DiameterOn(t: Tape, start: int): (r: (int, Tape))
    ensures r.0 >= 3 && |r.1| <= |t|
  {
    var (v, t1) := WobbleOn(t, start, DieFor(start), 4);
    RaiseOn(t1, v, 3, 4)
  }

  method RollDiameter(rng: PRNG, start: int) returns (v: int)
    modifies rng
    ensures (v, rng.tape) == DiameterOn(old(rng.tape), start)
  {
    var die := start / 4;
    if die < 2 {
      die := 2;
    }
    v := Wobble(rng, start, die, 4);
    v := Raise(rng, v, 3, 4);
  }

  /** Density in hundredths. */
  function DensityOn(t: Tape, giant: bool): (r: (int, Tape))
    ensures if giant then 60 <= r.0 <= 170 else 370 <= r.0 <= 570
    ensures |r.1| <= |t|
  {
    var sides := if giant then 56 else 101;
    var (a, t1) := RollOn(t, 1, sides);
    var (b, t2) := RollOn(t1, 1, sides);
    ((if giant then 58 else 368) + a + b, t2)
  }

  method RollDensity(rng: PRNG, giant: bool) returns (density: int)
    modifies rng
    ensures (density, rng.tape) == DensityOn(old(rng.tape), giant)
  {
    if giant {
      var a := rng.Roll(1, 56);
      var b := rng.Roll(1, 56);
      density := 58 + a + b;
    } else {
      var a := rng.Roll(1, 101);
      var b := rng.Roll(1, 101);
      density := 368 + a + b;
    }
  }

  /** A wobble of 3..9 steps of a quarter of the start. */
  function SpreadOn(t: Tape, start: int): (r: (int, Tape))
    ensures |r.1| <= |t|
  {
    var (a, t1) := RollOn(t, 1, 3);
    var (b, t2) := RollOn(t1, 1, 3);
    var (c, t3) := RollOn(t2, 1, 3);
    WobbleOn(t3, start, DieFor(start), a + b + c)
  }

  method Spread(rng: PRNG, start: int) returns (v: int)
    modifies rng
    ensures (v, rng.tape) == SpreadOn(old(rng.tape), start)
  {
    var die := start / 4;
    if die < 2 {
      die := 2;
    }
    var a := rng.Roll(1, 3);
    var b := rng.Roll(1, 3);
    var c := rng.Roll(1, 3);
    v := Wobble(rng, start, die, a + b + c);
  }

  /** Temperature before ordering: spread, clamped by category, and warmed in
      the inner two orbits of small systems. The rocky clamp steps differ
      between clusters (2) and templates (3). */
  function TemperatureOn(t: Tape, start: int, giant: bool, rockyDie: int, warm: bool): (r: (int, Tape))
    requires 1 <= rockyDie <= 3
    ensures 1 <= r.0 <= 30
    ensures giant && !warm ==> 3 <= r.0 <= 7
    ensures warm ==> r.0 >= 12
    ensures |r.1| <= |t|
  {
    var (v, t1) := SpreadOn(t, start);
    var (v2, t2) := if giant then ClampOn(t1, v, 3, 7, 2) else ClampOn(t1, v, 1, 30, rockyDie);
    if warm then RaiseOn(t2, v2, 12, 4) else (v2, t2)
  }

  method RollTemperature(rng: PRNG, start: int, giant: bool, rockyDie: int, warm: bool) returns (v: int)
    requires 1 <= rockyDie <= 3
    modifies rng
    ensures (v, rng.tape) == TemperatureOn(old(rng.tape), start, giant, rockyDie, warm)
  {
    v := Spread(rng, start);
    if giant {
      v := Clamp(rng, v, 3, 7, 2);
    } else {
      v := Clamp(rng, v, 1, 30, rockyDie);
    }
    if warm {
      v := Raise(rng, v, 12, 4);
    }
  }

  function PressureOn(t: Tape, start: int, giant: bool): (r: (int, Tape))
    ensures if giant then 11 <= r.0 <= 29 else 0 <= r.0 <= 12
    ensures |r.1| <= |t|
  {
    var (v, t1) := SpreadOn(t, start);
    if giant then ClampOn(t1, v, 11, 29, 3) else ClampOn(t1, v, 0, 12, 3)
  }

  method RollPressure(rng: PRNG, start: int, giant: bool) returns (v: int)
    modifies rng
    ensures (v, rng.tape) == PressureOn(old(rng.tape), start, giant)
  {
    v := Spread(rng, start);
    if giant {
      v := Clamp(rng, v, 11, 29, 3);
    } else {
      v := Clamp(rng, v, 0, 12, 3);
    }
  }

  predicate Warmed(numPlanets: int, orbit: int) {
    numPlanets < 4 && orbit <= 2
  }

  /** The warm-up of small systems never meets a gas giant: its two orbits
      start too small to wobble past diameter 40. */
  lemma WarmedIsRocky(t: Tape, numPlanets: int, orbit: int)
    requires 1 <= orbit <= numPlanets <= 9 && Warmed(numPlanets, orbit)
    ensures KindFromDiameter(DiameterOn(t, START_DIAMETER[SeedIndex(numPlanets, orbit)]).0) == Rocky
  {
    var start := START_DIAMETER[SeedIndex(numPlanets, orbit)];
    assert start == 13 || start == 20;
    WobbleRange(t, start, DieFor(start), 4);
  }
}
