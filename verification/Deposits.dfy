/** Mineral deposits rolled per planet; yields are in percent. */
module Deposits {
  import opened Bodies
  import opened Generator
  import opened Prng
  import opened Reach

  datatype Resource = Unset | Fuel | Gold | Metal | NonMetal

  datatype Deposit = Deposit(id: int, planetId: int, resource: Resource, quantity: int, yieldPct: int, mining: int)

  /** What the roll tables decide about a deposit. */
  datatype Ore = Ore(resource: Resource, quantity: int, yieldPct: int)

  function NumDepositsOn(t: Tape, kind: PlanetKind): (r: (int, Tape))
    ensures 1 <= r.0 <= 40
  {
    match kind
    case AsteroidBelt => DiceOn(t, 10, 4)
    case GasGiant => DiceOn(t, 3, 12)
    case Rocky =>
      var (n, t1) := DiceOn(t, 3, 8);
      (if n - 2 < 1 then 1 else n - 2, t1)
  }

  method RollNumDeposits(rng: PRNG, kind: PlanetKind) returns (n: int)
    modifies rng
    ensures (n, rng.tape) == NumDepositsOn(old(rng.tape), kind)
  {
    match kind {
      case AsteroidBelt => n := rng.Dice(10, 4);
      case GasGiant => n := rng.Dice(3, 12);
      case Rocky =>
        n := rng.Dice(3, 8);
        n := n - 2;
        if n < 1 {
          n := 1;
        }
    }
  }

  /** Twice `sides` of a step, peaked in the middle. */
  function TriangularOn(t: Tape, step: int, sides: int): (r: (int, Tape))
    requires step >= 0 && sides >= 1
    ensures 2 * step <= r.0 <= 2 * sides * step
  {
    var (a, t1) := RollOn(t, 1, sides);
    var (b, t2) := RollOn(t1, 1, sides);
    TriangleBounds(step, a + b, sides);
    (step * (a + b), t2)
  }

  lemma TriangleBounds(step: nat, n: int, sides: int)
    requires 2 <= n <= 2 * sides
    ensures 2 * step <= step * n <= 2 * sides * step
  {
  }

  method TriangularQuantity(rng: PRNG, step: int, sides: int) returns (q: int)
    requires step >= 0 && sides >= 1
    modifies rng
    ensures (q, rng.tape) == TriangularOn(old(rng.tape), step, sides)
  {
    var a := rng.Roll(1, sides);
    var b := rng.Roll(1, sides);
    q := step * (a + b);
  }

  /** A table row: a resource, its quantity dice and its yield dice. */
  function RowOn(t: Tape, resource: Resource, step: int, sides: int, dice: int, dieSides: int, bias: int)
    : (r: (Ore, Tape))
    requires step >= 0 && sides >= 1 && dieSides >= 1
  {
    var (q, t1) := TriangularOn(t, step, sides);
    var (y, t2) := DiceOn(t1, dice, dieSides);
    (Ore(resource, q, y + bias), t2)
  }

  method RollRow(rng: PRNG, resource: Resource, step: int, sides: int, dice: int, dieSides: int, bias: int)
    returns (ore: Ore)
    requires step >= 0 && sides >= 1 && dieSides >= 1
    modifies rng
    ensures (ore, rng.tape) == RowOn(old(rng.tape), resource, step, sides, dice, dieSides, bias)
  {
    var q := TriangularQuantity(rng, step, sides);
    var y := rng.Dice(dice, dieSides);
    ore := Ore(resource, q, y + bias);
  }

  function AsteroidBeltOn(t: Tape, roll: int): (r: (Ore, Tape)) {
    if roll == 1 then RowOn(t, Gold, 50000, 50, 1, 3, 0)
    else if roll <= 10 then RowOn(t, Fuel, 500000, 99, 3, 6, -2)
    else RowOn(t, Metal, 500000, 99, 3, 10, -2)
  }

  function GasGiantOn(t: Tape, roll: int): (r: (Ore, Tape)) {
    if roll <= 15 then RowOn(t, Fuel, 500000, 99, 10, 4, -2)
    else if roll <= 40 then RowOn(t, Metal, 500000, 99, 10, 6, 0)
    else RowOn(t, NonMetal, 500000, 99, 10, 6, 0)
  }

  function RockyOn(t: Tape, roll: int, hardMD: bool): (r: (Ore, Tape)) {
    if roll == 1 then
      if hardMD then RowOn(t, Gold, 50000, 10, 1, 3, 0) else RowOn(t, Gold, 50000, 10, 3, 4, -3)
    else if roll <= 15 then
      if hardMD then RowOn(t, Fuel, 500000, 99, 10, 4, -2) else RowOn(t, Fuel, 500000, 99, 10, 8, 0)
    else
      RowOn(t, if roll <= 45 then Metal else NonMetal, 500000, 99, 10, if hardMD then 6 else 8, 0)
  }

  /** Deposit number n of a planet. Mining difficulty 500 is 2500 fifths. */
  function DepositOn(t: Tape, p: Planet, n: int): (r: (Deposit, Tape)) {
    var (roll, t1) := RollOn(t, 1, 100);
    var (ore, t2) :=
      match p.kind
      case AsteroidBelt => AsteroidBeltOn(t1, roll)
      case GasGiant => GasGiantOn(t1, roll)
      case Rocky => RockyOn(t1, roll, p.mining >= 2500);
    (Deposit(p.id * 100 + n, p.id, ore.resource, ore.quantity, ore.yieldPct, p.mining), t2)
  }

  method RollRockyDeposit(rng: PRNG, roll: int, hardMD: bool) returns (ore: Ore)
    modifies rng
    ensures (ore, rng.tape) == RockyOn(old(rng.tape), roll, hardMD)
  {
    hide RowOn;
    if roll == 1 {
      if hardMD {
        ore := RollRow(rng, Gold, 50000, 10, 1, 3, 0);
      } else {
        ore := RollRow(rng, Gold, 50000, 10, 3, 4, -3);
      }
    } else if roll <= 15 {
      if hardMD {
        ore := RollRow(rng, Fuel, 500000, 99, 10, 4, -2);
      } else {
        ore := RollRow(rng, Fuel, 500000, 99, 10, 8, 0);
      }
    } else {
      var resource := if roll <= 45 then Metal else NonMetal;
      if hardMD {
        ore := RollRow(rng, resource, 500000, 99, 10, 6, 0);
      } else {
        ore := RollRow(rng, resource, 500000, 99, 10, 8, 0);
      }
    }
  }

  method RollGasGiantDeposit(rng: PRNG, roll: int) returns (ore: Ore)
    modifies rng
    ensures (ore, rng.tape) == GasGiantOn(old(rng.tape), roll)
  {
    hide RowOn;
    if roll <= 15 {
      ore := RollRow(rng, Fuel, 500000, 99, 10, 4, -2);
    } else if roll <= 40 {
      ore := RollRow(rng, Metal, 500000, 99, 10, 6, 0);
    } else {
      ore := RollRow(rng, NonMetal, 500000, 99, 10, 6, 0);
    }
  }

  method RollAsteroidBeltDeposit(rng: PRNG, roll: int) returns (ore: Ore)
    modifies rng
    ensures (ore, rng.tape) == AsteroidBeltOn(old(rng.tape), roll)
  {
    hide RowOn;
    if roll == 1 {
      ore := RollRow(rng, Gold, 50000, 50, 1, 3, 0);
    } else if roll <= 10 {
      ore := RollRow(rng, Fuel, 500000, 99, 3, 6, -2);
    } else {
      ore := RollRow(rng, Metal, 500000, 99, 3, 10, -2);
    }
  }

  method RollDeposit(rng: PRNG, p: Planet, n: int) returns (d: Deposit)
    modifies rng
    ensures (d, rng.tape) == DepositOn(old(rng.tape), p, n)
  {
    hide AsteroidBeltOn, GasGiantOn, RockyOn;
    var roll := rng.Roll(1, 100);
    var ore;
    match p.kind {
      case AsteroidBelt => ore := RollAsteroidBeltDeposit(rng, roll);
      case GasGiant => ore := RollGasGiantDeposit(rng, roll);
      case Rocky => ore := RollRockyDeposit(rng, roll, p.mining >= 2500);
    }
    d := Deposit(p.id * 100 + n, p.id, ore.resource, ore.quantity, ore.yieldPct, p.mining);
  }

  /** The deposits from number i to n of one planet. */
  function PlanetDepositsOn(t: Tape, p: Planet, i: int, n: int): (r: (seq<Deposit>, Tape))
    decreases n - i
  {
    if i > n then ([], t)
    else
      var (d, t1) := DepositOn(t, p, i);
      var (rest, t2) := PlanetDepositsOn(t1, p, i + 1, n);
      ([d] + rest, t2)
  }

  function DepositsOn(t: Tape, planets: seq<Planet>): (r: (seq<Deposit>, Tape))
    decreases |planets|
  {
    if planets == [] then ([], t)
    else
      var (n, t1) := NumDepositsOn(t, planets[0].kind);
      var (ds, t2) := PlanetDepositsOn(t1, planets[0], 1, n);
      var (rest, t3) := DepositsOn(t2, planets[1..]);
      (ds + rest, t3)
  }

  lemma DepositsTurn(t: Tape, p: Planet, i: int, n: int, before: seq<Deposit>)
    requires i <= n
    ensures var (d, t1) := DepositOn(t, p, i);
            var all, rest := PlanetDepositsOn(t, p, i, n), PlanetDepositsOn(t1, p, i + 1, n);
            before + all.0 == before + [d] + rest.0 && all.1 == rest.1
  {
    hide DepositOn;
    var (d, t1) := DepositOn(t, p, i);
    var rest := PlanetDepositsOn(t1, p, i + 1, n).0;
    assert before + ([d] + rest) == before + [d] + rest;
  }

  method RollPlanetDeposits(rng: PRNG, p: Planet, n: int) returns (ds: seq<Deposit>)
    modifies rng
    ensures (ds, rng.tape) == PlanetDepositsOn(old(rng.tape), p, 1, n)
  {
    hide DepositOn;
    ds := [];
    ghost var target := PlanetDepositsOn(rng.tape, p, 1, n);
    var i := 1;
    while i <= n
      invariant ds + PlanetDepositsOn(rng.tape, p, i, n).0 == target.0
      invariant PlanetDepositsOn(rng.tape, p, i, n).1 == target.1
      invariant i <= n || PlanetDepositsOn(rng.tape, p, i, n).0 == []
    {
      DepositsTurn(rng.tape, p, i, n, ds);
      var d := RollDeposit(rng, p, i);
      ds := ds + [d];
      i := i + 1;
    }
    assert ds + [] == ds;
  }

  /** The deposits of all planets, in planet order. */
  method RollDeposits(rng: PRNG, planets: seq<Planet>) returns (ds: seq<Deposit>)
    modifies rng
    ensures (ds, rng.tape) == DepositsOn(old(rng.tape), planets)
  {
    hide NumDepositsOn, PlanetDepositsOn;
    ds := [];
    ghost var target := DepositsOn(rng.tape, planets);
    var k := 0;
    assert planets[0..] == planets;
    while k < |planets|
      invariant 0 <= k <= |planets|
      invariant ds + DepositsOn(rng.tape, planets[k..]).0 == target.0
      invariant DepositsOn(rng.tape, planets[k..]).1 == target.1
    {
      assert planets[k..][0] == planets[k] && planets[k..][1..] == planets[k + 1..];
      var n := RollNumDeposits(rng, planets[k].kind);
      var more := RollPlanetDeposits(rng, planets[k], n);
      ghost var rest := DepositsOn(rng.tape, planets[k + 1..]).0;
      assert ds + (more + rest) == ds + more + rest;
      ds := ds + more;
      k := k + 1;
    }
    assert ds + [] == ds;
  }

  // ----- what the tables guarantee -----

  /** Quantities and yields stay in their documented ranges; gold is scarce and
      never found on a gas giant. */
  ghost predicate SoundDeposit(d: Deposit, p: Planet, n: int) {
    && d.planetId == p.id && d.id == p.id * 100 + n && d.mining == p.mining
    && d.resource != Unset && 0 <= d.yieldPct <= 80
    && (if d.resource == Gold
        then p.kind != GasGiant && 100000 <= d.quantity && d.yieldPct <= 9
          && d.quantity <= (if p.kind == Rocky then 1000000 else 5000000)
        else 1000000 <= d.quantity <= 99000000)
  }

  lemma RowRange(t: Tape, resource: Resource, step: int, sides: int, dice: nat, dieSides: int, bias: int)
    requires step >= 0 && sides >= 1 && dieSides >= 1 && dice >= 1
    ensures var ore := RowOn(t, resource, step, sides, dice, dieSides, bias).0;
            && ore.resource == resource
            && 2 * step <= ore.quantity <= 2 * sides * step
            && dice + bias <= ore.yieldPct <= dice * dieSides + bias
  {
  }

  lemma DepositIsSound(t: Tape, p: Planet, n: int)
    ensures SoundDeposit(DepositOn(t, p, n).0, p, n)
  {
    hide RowOn;
    var (roll, t1) := RollOn(t, 1, 100);
    var resource := if roll <= 45 then Metal else NonMetal;
    RowRange(t1, Gold, 50000, 50, 1, 3, 0);
    RowRange(t1, Fuel, 500000, 99, 3, 6, -2);
    RowRange(t1, Metal, 500000, 99, 3, 10, -2);
    RowRange(t1, Fuel, 500000, 99, 10, 4, -2);
    RowRange(t1, Metal, 500000, 99, 10, 6, 0);
    RowRange(t1, NonMetal, 500000, 99, 10, 6, 0);
    RowRange(t1, Gold, 50000, 10, 1, 3, 0);
    RowRange(t1, Gold, 50000, 10, 3, 4, -3);
    RowRange(t1, Fuel, 500000, 99, 10, 8, 0);
    RowRange(t1, resource, 500000, 99, 10, 6, 0);
    RowRange(t1, resource, 500000, 99, 10, 8, 0);
  }

  // ----- what can be found, exactly -----

  /** How many deposits a planet can have. */
  predicate CountCan(kind: PlanetKind, n: int) {
    match kind
    case AsteroidBelt => 10 <= n <= 40
    case GasGiant => 3 <= n <= 36
    case Rocky => 1 <= n <= 22
  }

  lemma CountRange(t: Tape, kind: PlanetKind)
    ensures CountCan(kind, NumDepositsOn(t, kind).0)
  {
    hide DiceOn;
  }

  lemma CountTape(kind: PlanetKind, n: int, rest: Tape) returns (t: Tape)
    requires CountCan(kind, n)
    ensures NumDepositsOn(t, kind) == (n, rest)
  {
    hide DiceOn;
    match kind {
      case AsteroidBelt => t := DiceTape(10, 4, n, rest);
      case GasGiant => t := DiceTape(3, 12, n, rest);
      case Rocky => t := DiceTape(3, 8, n + 2, rest);
    }
  }

  /** A find: multiples 2 to 2 * `most` of a step, and a yield from `low` to `high`. */
  datatype Find = Find(resource: Resource, step: int, most: int, low: int, high: int) {
    ghost predicate Has(resource: Resource, quantity: int, yieldPct: int) {
      && resource == this.resource && low <= yieldPct <= high
      && exists k :: 2 <= k <= 2 * most && quantity == Times(step, k)
    }
  }

  function Times(step: int, k: int): (q: int) {
    step * k
  }

  /** What each roll of a hundred finds; rocky planets that are hard to mine
      yield less. */
  function FindAt(kind: PlanetKind, hard: bool, roll: int): (f: Find) {
    match kind
    case AsteroidBelt =>
      if roll == 1 then Find(Gold, 50000, 50, 1, 3)
      else if roll <= 10 then Find(Fuel, 500000, 99, 1, 16)
      else Find(Metal, 500000, 99, 1, 28)
    case GasGiant =>
      if roll <= 15 then Find(Fuel, 500000, 99, 8, 38)
      else if roll <= 40 then Find(Metal, 500000, 99, 10, 60)
      else Find(NonMetal, 500000, 99, 10, 60)
    case Rocky =>
      if roll == 1 then (if hard then Find(Gold, 50000, 10, 1, 3) else Find(Gold, 50000, 10, 0, 9))
      else if roll <= 15 then (if hard then Find(Fuel, 500000, 99, 8, 38) else Find(Fuel, 500000, 99, 10, 80))
      else Find(if roll <= 45 then Metal else NonMetal, 500000, 99, 10, if hard then 60 else 80)
  }

  /** Deposit n of a planet when the first roll is `roll`. */
  ghost predicate DepositCan(d: Deposit, p: Planet, n: int, roll: int) {
    && d.id == p.id * 100 + n && d.planetId == p.id && d.mining == p.mining
    && FindAt(p.kind, p.mining >= 5 * 500, roll).Has(d.resource, d.quantity, d.yieldPct)
  }

  lemma RowHas(t: Tape, resource: Resource, step: int, sides: int, dice: nat, dieSides: int, bias: int)
    requires step >= 0 && sides >= 1 && dieSides >= 1 && dice >= 1
    ensures var ore := RowOn(t, resource, step, sides, dice, dieSides, bias).0;
            Find(resource, step, sides, dice + bias, dice * dieSides + bias).Has(ore.resource, ore.quantity, ore.yieldPct)
  {
    hide DiceOn;
    var (a, t1) := RollOn(t, 1, sides);
    var (b, t2) := RollOn(t1, 1, sides);
    assert RowOn(t, resource, step, sides, dice, dieSides, bias).0.quantity == Times(step, a + b);
  }

  lemma RowTape(ore: Ore, step: int, sides: int, dice: nat, dieSides: int, bias: int, rest: Tape)
    returns (t: Tape)
    requires step >= 0 && sides >= 1 && dieSides >= 1 && dice >= 1
    requires var find := Find(ore.resource, step, sides, dice + bias, dice * dieSides + bias);
             find.Has(ore.resource, ore.quantity, ore.yieldPct)
    ensures RowOn(t, ore.resource, step, sides, dice, dieSides, bias) == (ore, rest)
  {
    hide DiceOn, RollOn;
    var k :| 2 <= k <= 2 * sides && ore.quantity == Times(step, k);
    var a, b := TwoRolls(sides, k);
    t := DiceTape(dice, dieSides, ore.yieldPct - bias, rest);
    t := RollTape(1, sides, b, t);
    t := RollTape(1, sides, a, t);
  }

  /** The table row a roll reads, as dice. */
  datatype Dice = Dice(resource: Resource, step: int, sides: int, dice: nat, dieSides: int, bias: int) {
    predicate Proper() {
      step >= 0 && sides >= 1 && dieSides >= 1 && dice >= 1
    }

    function AsFind(): (f: Find) {
      Find(resource, step, sides, dice + bias, dice * dieSides + bias)
    }

    function Roll(t: Tape): (r: (Ore, Tape))
      requires Proper()
    {
      RowOn(t, resource, step, sides, dice, dieSides, bias)
    }
  }

  function OreOn(t: Tape, kind: PlanetKind, hard: bool, roll: int): (r: (Ore, Tape)) {
    match kind
    case AsteroidBelt => AsteroidBeltOn(t, roll)
    case GasGiant => GasGiantOn(t, roll)
    case Rocky => RockyOn(t, roll, hard)
  }

  lemma RowOf(kind: PlanetKind, hard: bool, roll: int) returns (d: Dice)
    ensures d.Proper() && d.AsFind() == FindAt(kind, hard, roll)
    ensures forall t :: OreOn(t, kind, hard, roll) == d.Roll(t)
  {
    hide RowOn;
    match kind {
      case AsteroidBelt =>
        d := if roll == 1 then Dice(Gold, 50000, 50, 1, 3, 0)
          else if roll <= 10 then Dice(Fuel, 500000, 99, 3, 6, -2)
          else Dice(Metal, 500000, 99, 3, 10, -2);
      case GasGiant =>
        d := if roll <= 15 then Dice(Fuel, 500000, 99, 10, 4, -2)
          else Dice(if roll <= 40 then Metal else NonMetal, 500000, 99, 10, 6, 0);
      case Rocky =>
        d := if roll == 1 then (if hard then Dice(Gold, 50000, 10, 1, 3, 0) else Dice(Gold, 50000, 10, 3, 4, -3))
          else if roll <= 15 then (if hard then Dice(Fuel, 500000, 99, 10, 4, -2) else Dice(Fuel, 500000, 99, 10, 8, 0))
          else Dice(if roll <= 45 then Metal else NonMetal, 500000, 99, 10, if hard then 6 else 8, 0);
    }
  }

  /** Draws that start with this roll of a hundred. */
  function Rolling(roll: int, t: Tape): (r: Tape)
    requires roll >= 1
  {
    [roll - 1] + t
  }

  lemma DepositRange(t: Tape, p: Planet, n: int, roll: int)
    requires 1 <= roll <= 100
    ensures DepositCan(DepositOn(Rolling(roll, t), p, n).0, p, n, roll)
  {
    hide RowOn, AsteroidBeltOn, GasGiantOn, RockyOn, FindAt, Find.Has;
    var row := RowOf(p.kind, p.mining >= 2500, roll);
    RollReaches(1, 100, roll, t);
    assert OreOn(t, p.kind, p.mining >= 2500, roll) == row.Roll(t);
    RowHas(t, row.resource, row.step, row.sides, row.dice, row.dieSides, row.bias);
  }

  lemma DepositTape(d: Deposit, p: Planet, n: int, roll: int, rest: Tape) returns (t: Tape)
    requires 1 <= roll <= 100 && DepositCan(d, p, n, roll)
    ensures DepositOn(Rolling(roll, t), p, n) == (d, rest)
  {
    hide RowOn, AsteroidBeltOn, GasGiantOn, RockyOn, FindAt, Find.Has;
    var hard := p.mining >= 2500;
    var row := RowOf(p.kind, hard, roll);
    RowResource(FindAt(p.kind, hard, roll), d.resource, d.quantity, d.yieldPct);
    var ore := Ore(d.resource, d.quantity, d.yieldPct);
    t := RowTape(ore, row.step, row.sides, row.dice, row.dieSides, row.bias, rest);
    RollReaches(1, 100, roll, t);
    assert OreOn(t, p.kind, hard, roll) == row.Roll(t) == (ore, rest);
  }

  /** The deposits a first roll can lead to, and no others. */
  lemma DepositIff(d: Deposit, p: Planet, n: int, roll: int)
    requires 1 <= roll <= 100
    ensures (exists t :: DepositOn(Rolling(roll, t), p, n).0 == d) <==> DepositCan(d, p, n, roll)
  {
    hide DepositOn, DepositCan, Rolling;
    forall t: Tape | DepositOn(Rolling(roll, t), p, n).0 == d ensures DepositCan(d, p, n, roll) {
      DepositRange(t, p, n, roll);
    }
    if DepositCan(d, p, n, roll) {
      var t := DepositTape(d, p, n, roll, []);
    }
  }

  lemma RowResource(f: Find, resource: Resource, quantity: int, yieldPct: int)
    requires f.Has(resource, quantity, yieldPct)
    ensures f.resource == resource
  {
  }

  ghost predicate Found(d: Deposit, p: Planet, n: int) {
    exists roll :: 1 <= roll <= 100 && DepositCan(d, p, n, roll)
  }

  /** The deposits of one planet from number i on, each found by some roll. */
  ghost predicate FoundOn(ds: seq<Deposit>, p: Planet, i: int) {
    forall j :: 0 <= j < |ds| ==> Found(ds[j], p, i + j)
  }

  /** Planet by planet, as many as the planet can have, numbered from 1. */
  ghost predicate BlocksCan(ds: seq<Deposit>, planets: seq<Planet>) {
    if planets == [] then ds == []
    else
      (exists m :: 0 <= m <= |ds| && CountCan(planets[0].kind, m)
         && FoundOn(ds[..m], planets[0], 1) && BlocksCan(ds[m..], planets[1..]))
  }

  lemma SomeRoll(t: Tape, p: Planet, n: int) returns (roll: int, t1: Tape)
    ensures 1 <= roll <= 100 && DepositOn(t, p, n) == DepositOn(Rolling(roll, t1), p, n)
  {
    hide RowOn, AsteroidBeltOn, GasGiantOn, RockyOn;
    var r := RollOn(t, 1, 100);
    roll, t1 := r.0, r.1;
    RollReaches(1, 100, roll, t1);
  }

  lemma {:induction false} PlanetRange(t: Tape, p: Planet, i: int, n: int)
    requires 1 <= i
    ensures FoundOn(PlanetDepositsOn(t, p, i, n).0, p, i)
    ensures |PlanetDepositsOn(t, p, i, n).0| == if i > n then 0 else n - i + 1
    decreases n - i
  {
    hide DepositOn, DepositCan;
    if i <= n {
      var (d, t1) := DepositOn(t, p, i);
      var roll, t2 := SomeRoll(t, p, i);
      DepositRange(t2, p, i, roll);
      PlanetRange(t1, p, i + 1, n);
      FoundCons(d, PlanetDepositsOn(t1, p, i + 1, n).0, p, i);
    }
  }

  lemma FoundCons(d: Deposit, rest: seq<Deposit>, p: Planet, i: int)
    ensures FoundOn([d] + rest, p, i) <==> Found(d, p, i) && FoundOn(rest, p, i + 1)
  {
    hide Found;
    var ds := [d] + rest;
    if FoundOn(ds, p, i) {
      assert Found(ds[0], p, i + 0);
      forall j | 0 <= j < |rest| ensures Found(rest[j], p, i + 1 + j) {
        assert Found(ds[j + 1], p, i + (j + 1));
      }
    }
    if Found(d, p, i) && FoundOn(rest, p, i + 1) {
      forall j | 0 <= j < |ds| ensures Found(ds[j], p, i + j) {
        if j > 0 {
          assert Found(rest[j - 1], p, i + 1 + (j - 1));
        }
      }
    }
  }

  lemma {:induction false} PlanetDepositsTape(ds: seq<Deposit>, p: Planet, i: int, n: int, rest: Tape) returns (t: Tape)
    requires 1 <= i <= n + 1 && |ds| == n - i + 1 && FoundOn(ds, p, i)
    ensures PlanetDepositsOn(t, p, i, n) == (ds, rest)
    decreases n - i
  {
    hide DepositOn, DepositCan, Rolling, FoundOn;
    if i > n {
      t := rest;
    } else {
      assert ds == [ds[0]] + ds[1..];
      FoundCons(ds[0], ds[1..], p, i);
      var roll :| 1 <= roll <= 100 && DepositCan(ds[0], p, i, roll);
      var tail := PlanetDepositsTape(ds[1..], p, i + 1, n, rest);
      var t1 := DepositTape(ds[0], p, i, roll, tail);
      t := Rolling(roll, t1);
    }
  }

  lemma {:induction false} DepositsRange(t: Tape, planets: seq<Planet>)
    ensures BlocksCan(DepositsOn(t, planets).0, planets)
    decreases |planets|
  {
    hide NumDepositsOn, PlanetDepositsOn, FoundOn, CountCan;
    if planets != [] {
      var (n, t1) := NumDepositsOn(t, planets[0].kind);
      var (ds, t2) := PlanetDepositsOn(t1, planets[0], 1, n);
      CountRange(t, planets[0].kind);
      PlanetRange(t1, planets[0], 1, n);
      DepositsRange(t2, planets[1..]);
      var rest := DepositsOn(t2, planets[1..]).0;
      assert (ds + rest)[..n] == ds && (ds + rest)[n..] == rest;
    }
  }

  lemma {:induction false} DepositsTape(ds: seq<Deposit>, planets: seq<Planet>, rest: Tape) returns (t: Tape)
    requires BlocksCan(ds, planets)
    ensures DepositsOn(t, planets) == (ds, rest)
    decreases |planets|
  {
    hide NumDepositsOn, PlanetDepositsOn, FoundOn, CountCan;
    if planets == [] {
      t := rest;
    } else {
      var m :| 0 <= m <= |ds| && CountCan(planets[0].kind, m)
        && FoundOn(ds[..m], planets[0], 1) && BlocksCan(ds[m..], planets[1..]);
      var t2 := DepositsTape(ds[m..], planets[1..], rest);
      var t1 := PlanetDepositsTape(ds[..m], planets[0], 1, m, t2);
      t := CountTape(planets[0].kind, m, t1);
      assert ds == ds[..m] + ds[m..];
    }
  }

  /** The deposits the planets of a cluster can have, and no others. */
  lemma DepositsIff(ds: seq<Deposit>, planets: seq<Planet>)
    ensures (exists t :: DepositsOn(t, planets).0 == ds) <==> BlocksCan(ds, planets)
  {
    hide DepositsOn, BlocksCan;
    forall t | DepositsOn(t, planets).0 == ds ensures BlocksCan(ds, planets) {
      DepositsRange(t, planets);
    }
    if BlocksCan(ds, planets) {
      var t := DepositsTape(ds, planets, []);
    }
  }

  // ----- identifiers -----

  ghost predicate IncreasingIds(ds: seq<Deposit>) {
    forall i, j :: 0 <= i < j < |ds| ==> ds[i].id < ds[j].id
  }

  lemma {:induction false} PlanetDepositIds(t: Tape, p: Planet, i: int, n: int)
    requires 1 <= i
    ensures var ds := PlanetDepositsOn(t, p, i, n).0;
            && |ds| == (if i > n then 0 else n - i + 1)
            && forall k :: 0 <= k < |ds| ==> SoundDeposit(ds[k], p, i + k)
    decreases n - i
  {
    hide DepositOn, SoundDeposit;
    if i <= n {
      var (d, t1) := DepositOn(t, p, i);
      DepositIsSound(t, p, i);
      PlanetDepositIds(t1, p, i + 1, n);
      var rest := PlanetDepositsOn(t1, p, i + 1, n).0;
      var ds := [d] + rest;
      assert PlanetDepositsOn(t, p, i, n).0 == ds;
      forall k | 0 <= k < |ds| ensures SoundDeposit(ds[k], p, i + k) {
        if k > 0 {
          assert ds[k] == rest[k - 1] && i + k == i + 1 + (k - 1);
        }
      }
    }
  }

  /** A deposit's planet and number, read back from its id. */
  ghost predicate Decodes(d: Deposit) {
    d.planetId == d.id / 100 && 1 <= d.id % 100 <= 40
  }

  /** Ids rise strictly over the whole list and decode uniquely, because the
      dice cap a planet's deposits at 40; every planet has at least one. */
  lemma {:induction false} DepositIdsDecode(t: Tape, planets: seq<Planet>)
    requires forall i, j :: 0 <= i < j < |planets| ==> planets[i].id < planets[j].id
    requires forall i :: 0 <= i < |planets| ==> planets[i].id >= 1
    ensures var ds := DepositsOn(t, planets).0;
            && IncreasingIds(ds) && |planets| <= |ds| <= 40 * |planets|
            && (forall k :: 0 <= k < |ds| ==> Decodes(ds[k]))
            && (forall k :: 0 <= k < |ds| ==> exists i :: 0 <= i < |planets| && planets[i].id == ds[k].planetId)
    decreases |planets|
  {
    hide NumDepositsOn, PlanetDepositsOn;
    if planets != [] {
      var p := planets[0];
      var (n, t1) := NumDepositsOn(t, p.kind);
      var (ds, t2) := PlanetDepositsOn(t1, p, 1, n);
      PlanetDepositIds(t1, p, 1, n);
      DepositIdsDecode(t2, planets[1..]);
      var rest := DepositsOn(t2, planets[1..]).0;
      forall k | 0 <= k < |ds| ensures Decodes(ds[k]) && ds[k].planetId == p.id && ds[k].id == p.id * 100 + 1 + k {
        assert SoundDeposit(ds[k], p, 1 + k);
        DecodeId(p.id, 1 + k);
      }
      forall k | 0 <= k < |rest| ensures rest[k].planetId > p.id {
        var i :| 0 <= i < |planets[1..]| && planets[1..][i].id == rest[k].planetId;
        assert planets[1..][i] == planets[i + 1];
      }
      JoinIds(ds, rest, p.id, planets);
    }
  }

  lemma DecodeId(p: int, n: int)
    requires 0 <= n < 100
    ensures (p * 100 + n) / 100 == p && (p * 100 + n) % 100 == n
  {
  }

  lemma JoinIds(ds: seq<Deposit>, rest: seq<Deposit>, p: int, planets: seq<Planet>)
    requires planets != [] && planets[0].id == p
    requires forall k :: 0 <= k < |ds| ==> Decodes(ds[k]) && ds[k].planetId == p && ds[k].id == p * 100 + 1 + k
    requires IncreasingIds(rest) && forall k :: 0 <= k < |rest| ==> Decodes(rest[k]) && rest[k].planetId > p
    requires forall k :: 0 <= k < |rest| ==> exists i :: 0 <= i < |planets[1..]| && planets[1..][i].id == rest[k].planetId
    ensures var all := ds + rest;
            && IncreasingIds(all) && (forall k :: 0 <= k < |all| ==> Decodes(all[k]))
            && (forall k :: 0 <= k < |all| ==> exists i :: 0 <= i < |planets| && planets[i].id == all[k].planetId)
  {
    var all := ds + rest;
    forall k | 0 <= k < |all| ensures exists i :: 0 <= i < |planets| && planets[i].id == all[k].planetId {
      if k >= |ds| {
        assert all[k] == rest[k - |ds|];
        var i :| 0 <= i < |planets[1..]| && planets[1..][i].id == all[k].planetId;
        assert planets[i + 1].id == all[k].planetId;
      }
    }
    forall i, j | 0 <= i < j < |all| ensures all[i].id < all[j].id {
      if i < |ds| <= j {
        assert Decodes(all[i]) && Decodes(rest[j - |ds|]);
      }
    }
  }
}
