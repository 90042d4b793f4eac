/**
 The cluster: systems, stars and planets as flat lists linked by identifiers,
 how generation lays them out, and the lookups that follow the links.
 */
module Clusters {
  import opened Generator
  import opened Hexes
  import opened Options
  import opened Placement
  import opened Prng
  import Deposits
  import Driver

  datatype System = System(id: int, hex: Axial)

  /** The flat lists of a cluster. */
  datatype Layout = Layout(systems: seq<System>, stars: seq<Star>, planets: seq<Planet>)

  datatype ClusterOptions = ClusterOptions(radius: int, numSystems: int, minimumDistance: int, merge: bool)

  // ----- building -----

  /** The planets of one star with their identifiers and orbits. */
  function Stamped(ps: seq<Planet>, starId: int, firstId: int): (r: seq<Planet>)
    ensures |r| == |ps|
    ensures forall i :: 0 <= i < |ps| ==> r[i] == ps[i].(id := firstId + i, starId := starId, orbit := i + 1)
  {
    seq(|ps|, i requires 0 <= i < |ps| => ps[i].(id := firstId + i, starId := starId, orbit := i + 1))
  }

  /** One more star, and its planets, for system `sysId`. */
  function WithStar(c: Layout, sysId: int, star: Star, ps: seq<Planet>): (r: Layout) {
    var starId := |c.stars| + 1;
    c.(stars := c.stars + [star.(id := starId, systemId := sysId)],
       planets := c.planets + Stamped(ps, starId, |c.planets| + 1))
  }

  function AddStarOn(t: Tape, c: Layout, sysId: int): (r: (Layout, Tape)) {
    var (star, ps, t1) := StarOn(t);
    (WithStar(c, sysId, star, ps), t1)
  }

  function AddStarsOn(t: Tape, c: Layout, sysId: int, count: int): (r: (Layout, Tape))
    decreases count
  {
    if count <= 0 then (c, t)
    else
      var (c1, t1) := AddStarOn(t, c, sysId);
      AddStarsOn(t1, c1, sysId, count - 1)
  }

  function AddSystemOn(t: Tape, c: Layout, p: HexPlacement): (r: (Layout, Tape)) {
    var sysId := |c.systems| + 1;
    AddStarsOn(t, c.(systems := c.systems + [System(sysId, p.hex)]), sysId, p.stars)
  }

  function AddSystemsOn(t: Tape, c: Layout, ps: seq<HexPlacement>): (r: (Layout, Tape))
    decreases |ps|
  {
    if ps == [] then (c, t)
    else
      var (c1, t1) := AddSystemOn(t, c, ps[0]);
      AddSystemsOn(t1, c1, ps[1..])
  }

  const EMPTY: Layout := Layout([], [], [])

  /** Placement and star rolls on their own substreams. */
  function ClusterOn(gen: Source, t: Tape, opts: ClusterOptions): (r: (Layout, PlaceResult, Tape)) {
    var (placementTape, t1) := SplitOn(gen, t);
    var (starTape, t2) := SplitOn(gen, t1);
    var (placed, rest) := PlaceOn(placementTape, opts.radius, opts.numSystems, opts.minimumDistance, opts.merge);
    (AddSystemsOn(starTape, EMPTY, placed.placements).0, placed, t2)
  }

  // ----- the program -----

  class Cluster {
    const radius: int
    var systems: seq<System>
    var stars: seq<Star>
    var planets: seq<Planet>
    var deposits: seq<Deposits.Deposit>
    var homeStarTemplates: array?<Driver.Outcome?>

    constructor (radius: int)
      ensures this.radius == radius && View() == EMPTY && deposits == [] && homeStarTemplates == null
    {
      this.radius := radius;
      systems, stars, planets, deposits := [], [], [], [];
      homeStarTemplates := null;
    }

    function View(): (c: Layout)
      reads this
    {
      Layout(systems, stars, planets)
    }

    /** Roll a star for a system and append it with its planets. */
    method AppendStar(rng: PRNG, sysId: int)
      modifies this, rng
      ensures (View(), rng.tape) == AddStarOn(old(rng.tape), old(View()), sysId)
      ensures deposits == old(deposits) && homeStarTemplates == old(homeStarTemplates)
    {
      hide StarOn;
      var star, ps := RollStar(rng);
      var starId := |stars| + 1;
      ghost var t1 := rng.tape;
      ghost var stamped := Stamped(ps, starId, |planets| + 1);
      var i := 0;
      while i < |ps|
        invariant 0 <= i <= |ps|
        invariant planets == old(planets) + stamped[..i]
        invariant systems == old(systems) && stars == old(stars)
        invariant deposits == old(deposits) && homeStarTemplates == old(homeStarTemplates)
        invariant rng.tape == t1
      {
        var planet := ps[i].(id := |planets| + 1, starId := starId, orbit := i + 1);
        assert planet == stamped[i];
        planets := planets + [planet];
        i := i + 1;
      }
      assert stamped[..i] == stamped;
      stars := stars + [star.(id := starId, systemId := sysId)];
      assert View() == WithStar(old(View()), sysId, star, ps);
    }

    /** Append a system and its stars. */
    method AppendSystem(rng: PRNG, p: HexPlacement)
      modifies this, rng
      ensures (View(), rng.tape) == AddSystemOn(old(rng.tape), old(View()), p)
      ensures deposits == old(deposits) && homeStarTemplates == old(homeStarTemplates)
    {
      hide AddStarOn;
      var sysId := |systems| + 1;
      systems := systems + [System(sysId, p.hex)];
      ghost var target := AddStarsOn(rng.tape, View(), sysId, p.stars);
      var i := 0;
      while i < p.stars
        invariant AddStarsOn(rng.tape, View(), sysId, p.stars - i) == target
        invariant deposits == old(deposits) && homeStarTemplates == old(homeStarTemplates)
      {
        AppendStar(rng, sysId);
        i := i + 1;
      }
    }

    // ----- lookups -----

    method StarsForSystem(sysID: int) returns (out: seq<Star>)
      ensures out == StarsOf(stars, sysID)
    {
      out := [];
      var i := 0;
      while i < |stars|
        invariant 0 <= i <= |stars|
        invariant out == StarsOf(stars[..i], sysID)
      {
        assert stars[..i + 1][..i] == stars[..i];
        if stars[i].systemId == sysID {
          out := out + [stars[i]];
        }
        i := i + 1;
      }
      assert stars[..i] == stars;
    }

    method PlanetsForStar(starID: int) returns (out: seq<Planet>)
      ensures out == PlanetsOf(planets, {starID})
    {
      out := [];
      var i := 0;
      while i < |planets|
        invariant 0 <= i <= |planets|
        invariant out == PlanetsOf(planets[..i], {starID})
      {
        assert planets[..i + 1][..i] == planets[..i];
        if planets[i].starId == starID {
          out := out + [planets[i]];
        }
        i := i + 1;
      }
      assert planets[..i] == planets;
    }

    method PlanetsForSystem(sysID: int) returns (out: seq<Planet>)
      ensures out == PlanetsOf(planets, IdsOf(StarsOf(stars, sysID)))
    {
      var starIDs: set<int> := {};
      var i := 0;
      while i < |stars|
        invariant 0 <= i <= |stars|
        invariant starIDs == IdsOf(StarsOf(stars[..i], sysID))
      {
        assert stars[..i + 1][..i] == stars[..i];
        if stars[i].systemId == sysID {
          IdsOfAppend(StarsOf(stars[..i], sysID), stars[i]);
          starIDs := starIDs + {stars[i].id};
        }
        i := i + 1;
      }
      assert stars[..i] == stars;
      out := [];
      var k := 0;
      while k < |planets|
        invariant 0 <= k <= |planets|
        invariant out == PlanetsOf(planets[..k], starIDs)
      {
        assert planets[..k + 1][..k] == planets[..k];
        if planets[k].starId in starIDs {
          out := out + [planets[k]];
        }
        k := k + 1;
      }
      assert planets[..k] == planets;
    }

    /** The systems with more than one star, counted through a map of counts
        whose values are visited in whatever order. */
    method CountMultiStarSystems() returns (n: int)
      ensures n == |MultiStar(stars)|
    {
      hide StarsOf;
      var counts: map<int, int> := map[];
      var i := 0;
      assert forall s :: StarsOf([], s) == [] by { NoStars(); }
      while i < |stars|
        invariant 0 <= i <= |stars|
        invariant forall s :: (if s in counts then counts[s] else 0) == |StarsOf(stars[..i], s)|
        invariant forall s :: s in counts ==> exists k :: 0 <= k < i && stars[k].systemId == s
      {
        assert stars[..i + 1] == stars[..i] + [stars[i]];
        var s := stars[i].systemId;
        forall x ensures StarsOf(stars[..i + 1], x) == StarsOf(stars[..i], x) + if s == x then [stars[i]] else [] {
          StarsOfAppend(stars[..i], stars[i], x);
        }
        counts := counts[s := (if s in counts then counts[s] else 0) + 1];
        i := i + 1;
      }
      assert stars[..i] == stars;
      n := 0;
      var todo := counts.Keys;
      while exists s :: s in todo
        invariant todo <= counts.Keys
        invariant n == |set s | s in counts && s !in todo && counts[s] > 1|
        decreases todo
      {
        var s :| s in todo;
        ghost var before := set x | x in counts && x !in todo && counts[x] > 1;
        todo := todo - {s};
        ghost var after := set x | x in counts && x !in todo && counts[x] > 1;
        if counts[s] > 1 {
          assert after == before + {s};
          n := n + 1;
        } else {
          assert after == before;
        }
      }
      assert todo == {};
      ghost var multi := set s | s in counts && s !in todo && counts[s] > 1;
      forall s | s in multi ensures s in MultiStar(stars) {
        var k :| 0 <= k < |stars| && stars[k].systemId == s;
        assert |StarsOf(stars, stars[k].systemId)| > 1;
      }
      forall s | s in MultiStar(stars) ensures s in multi {
        var k :| 0 <= k < |stars| && s == stars[k].systemId && |StarsOf(stars, stars[k].systemId)| > 1;
        assert |StarsOf(stars, s)| > 1;
      }
      assert multi == MultiStar(stars);
    }

    /** The viewer's grouping of stars by system. */
    method GroupStars() returns (starsBySys: map<int, seq<Star>>)
      ensures forall s :: (if s in starsBySys then starsBySys[s] else []) == StarsOf(stars, s)
    {
      hide StarsOf;
      starsBySys := map[];
      var i := 0;
      assert forall s :: StarsOf([], s) == [] by { NoStars(); }
      while i < |stars|
        invariant 0 <= i <= |stars|
        invariant forall s :: (if s in starsBySys then starsBySys[s] else []) == StarsOf(stars[..i], s)
      {
        assert stars[..i + 1] == stars[..i] + [stars[i]];
        var s := stars[i].systemId;
        forall x ensures StarsOf(stars[..i + 1], x) == StarsOf(stars[..i], x) + if s == x then [stars[i]] else [] {
          StarsOfAppend(stars[..i], stars[i], x);
        }
        starsBySys := starsBySys[s := (if s in starsBySys then starsBySys[s] else []) + [stars[i]]];
        i := i + 1;
      }
      assert stars[..i] == stars;
    }

    /** The viewer's grouping of planets by star. */
    method GroupPlanets() returns (planetsByStar: map<int, seq<Planet>>)
      ensures forall s :: (if s in planetsByStar then planetsByStar[s] else []) == PlanetsOf(planets, {s})
    {
      hide PlanetsOf;
      planetsByStar := map[];
      var i := 0;
      assert forall s :: PlanetsOf([], {s}) == [] by { NoPlanets(); }
      while i < |planets|
        invariant 0 <= i <= |planets|
        invariant forall s :: (if s in planetsByStar then planetsByStar[s] else []) == PlanetsOf(planets[..i], {s})
      {
        assert planets[..i + 1] == planets[..i] + [planets[i]];
        var s := planets[i].starId;
        forall x ensures PlanetsOf(planets[..i + 1], {x})
                      == PlanetsOf(planets[..i], {x}) + if s == x then [planets[i]] else [] {
          PlanetsOfAppend(planets[..i], planets[i], {x});
        }
        planetsByStar := planetsByStar[s := (if s in planetsByStar then planetsByStar[s] else []) + [planets[i]]];
        i := i + 1;
      }
      assert planets[..i] == planets;
    }
  }

  method GenerateCluster(rng: PRNG, opts: ClusterOptions) returns (cluster: Cluster, err: Option<PlacementError>)
    modifies rng
    ensures fresh(cluster) && cluster.radius == opts.radius
    ensures cluster.View() == ClusterOn(rng.gen, old(rng.tape), opts).0
    ensures err == ClusterOn(rng.gen, old(rng.tape), opts).1.error
    ensures rng.tape == ClusterOn(rng.gen, old(rng.tape), opts).2
    ensures cluster.deposits == [] && cluster.homeStarTemplates == null
  {
    hide PlaceOn, AddSystemOn;
    var rngPlacement := rng.Split();
    var rngStars := rng.Split();
    var placed := PlaceHexSystems(rngPlacement, opts.radius, opts.numSystems, opts.minimumDistance, opts.merge);
    err := placed.error;
    cluster := new Cluster(opts.radius);
    var ps := placed.placements;
    ghost var target := AddSystemsOn(rngStars.tape, EMPTY, ps);
    assert ps[0..] == ps;
    var k := 0;
    while k < |ps|
      invariant 0 <= k <= |ps|
      invariant AddSystemsOn(rngStars.tape, cluster.View(), ps[k..]) == target
      invariant cluster.deposits == [] && cluster.homeStarTemplates == null
      modifies cluster, rngStars
    {
      assert ps[k..][0] == ps[k] && ps[k..][1..] == ps[k + 1..];
      cluster.AppendSystem(rngStars, ps[k]);
      k := k + 1;
    }
  }

  // ----- what the lookups return -----

  function StarsOf(stars: seq<Star>, sysId: int): (r: seq<Star>) {
    if stars == [] then [] else
      var s := stars[|stars| - 1];
      StarsOf(stars[..|stars| - 1], sysId) + if s.systemId == sysId then [s] else []
  }

  function PlanetsOf(planets: seq<Planet>, starIds: set<int>): (r: seq<Planet>) {
    if planets == [] then [] else
      var p := planets[|planets| - 1];
      PlanetsOf(planets[..|planets| - 1], starIds) + if p.starId in starIds then [p] else []
  }

  function IdsOf(stars: seq<Star>): (ids: set<int>) {
    set s | s in stars :: s.id
  }

  lemma IdsOfAppend(stars: seq<Star>, s: Star)
    ensures IdsOf(stars + [s]) == IdsOf(stars) + {s.id}
  {
    assert forall x :: x in stars + [s] <==> x in stars || x == s;
  }

  /** The identifiers of systems with more than one star. */
  function MultiStar(stars: seq<Star>): (ids: set<int>) {
    set k | 0 <= k < |stars| && |StarsOf(stars, stars[k].systemId)| > 1 :: stars[k].systemId
  }

  // ----- layout invariants -----

  /** The planets of the first k stars. */
  function Offset(stars: seq<Star>, k: nat): (n: int)
    requires k <= |stars|
  {
    if k == 0 then 0 else Offset(stars, k - 1) + stars[k - 1].numPlanets
  }

  /** Star k's planets are the next numPlanets of the list, at orbits 1, 2, ... */
  ghost predicate OwnsBlock(c: Layout, k: nat)
    requires k < |c.stars|
  {
    && 1 <= c.stars[k].numPlanets <= 9
    && 0 <= Offset(c.stars, k) && Offset(c.stars, k) + c.stars[k].numPlanets <= |c.planets|
    && forall i :: Offset(c.stars, k) <= i < Offset(c.stars, k) + c.stars[k].numPlanets ==>
         c.planets[i].starId == k + 1 && c.planets[i].orbit == i - Offset(c.stars, k) + 1
  }

  /** The star's planets are sound where they orbit, none warmer than one
      inside it. */
  ghost predicate SoundBlock(c: Layout, k: nat)
    requires k < |c.stars| && OwnsBlock(c, k)
  {
    var from, to := Offset(c.stars, k), Offset(c.stars, k) + c.stars[k].numPlanets;
    && (forall i :: from <= i < to ==> SoundPlanet(c.planets[i], c.stars[k].numPlanets, c.planets[i].orbit))
    && (forall i, j :: from <= i < j < to ==> c.planets[i].temperatureClass >= c.planets[j].temperatureClass)
  }

  ghost predicate Sequential(c: Layout) {
    && (forall i :: 0 <= i < |c.systems| ==> c.systems[i].id == i + 1)
    && (forall i :: 0 <= i < |c.stars| ==> c.stars[i].id == i + 1 && 1 <= c.stars[i].systemId <= |c.systems|)
    && (forall i :: 0 <= i < |c.planets| ==> c.planets[i].id == i + 1 && 1 <= c.planets[i].starId <= |c.stars|)
  }

  /** Identifiers count up from 1, every reference resolves, and each star owns
      one block of sound planets. */
  ghost predicate Integral(c: Layout) {
    && Sequential(c)
    && |c.planets| == Offset(c.stars, |c.stars|)
    && forall k :: 0 <= k < |c.stars| ==> OwnsBlock(c, k) && SoundBlock(c, k)
  }

  lemma {:induction false} OffsetPrefix(a: seq<Star>, s: Star, k: nat)
    requires k <= |a|
    ensures Offset(a + [s], k) == Offset(a, k)
  {
    if k > 0 {
      OffsetPrefix(a, s, k - 1);
    }
  }

  lemma WithStarIsIntegral(c: Layout, sysId: int, star: Star, ps: seq<Planet>)
    requires Integral(c) && 1 <= sysId <= |c.systems|
    requires 1 <= star.numPlanets <= 9 && |ps| == star.numPlanets && SoundOrbits(ps, star.numPlanets, 1)
    ensures Integral(WithStar(c, sysId, star, ps))
  {
    hide SoundPlanet;
    var c1 := WithStar(c, sysId, star, ps);
    var n := |c.stars|;
    var added := star.(id := n + 1, systemId := sysId);
    OffsetPrefix(c.stars, added, n);
    forall k | 0 <= k < |c1.stars| ensures OwnsBlock(c1, k) && SoundBlock(c1, k) {
      if k < n {
        OffsetPrefix(c.stars, added, k);
        assert OwnsBlock(c, k) && SoundBlock(c, k);
      } else {
        NewBlockIsSound(c, sysId, star, ps);
      }
    }
  }

  lemma NewBlockIsSound(c: Layout, sysId: int, star: Star, ps: seq<Planet>)
    requires Integral(c) && 1 <= star.numPlanets <= 9 && |ps| == star.numPlanets && SoundOrbits(ps, star.numPlanets, 1)
    ensures var c1 := WithStar(c, sysId, star, ps);
            OwnsBlock(c1, |c.stars|) && SoundBlock(c1, |c.stars|)
  {
    hide SoundPlanet;
    var c1, n, from := WithStar(c, sysId, star, ps), |c.stars|, |c.planets|;
    OffsetPrefix(c.stars, star.(id := n + 1, systemId := sysId), n);
    assert OwnsBlock(c1, n);
    forall i | from <= i < from + |ps|
      ensures SoundPlanet(c1.planets[i], star.numPlanets, c1.planets[i].orbit)
      ensures c1.planets[i].temperatureClass == ps[i - from].temperatureClass
    {
      StampKeepsSound(ps[i - from], star.numPlanets, 1 + (i - from), from + 1 + (i - from), n + 1, i - from + 1);
    }
  }

  lemma StampKeepsSound(p: Planet, numPlanets: int, at: int, id: int, starId: int, orbit: int)
    requires SoundPlanet(p, numPlanets, at)
    ensures SoundPlanet(p.(id := id, starId := starId, orbit := orbit), numPlanets, at)
  {
  }

  lemma AddStarIsIntegral(t: Tape, c: Layout, sysId: int)
    requires Integral(c) && 1 <= sysId <= |c.systems|
    ensures Integral(AddStarOn(t, c, sysId).0)
    ensures AddStarOn(t, c, sysId).0.systems == c.systems
  {
    hide StarOn, SoundOrbits;
    var (star, ps, t1) := StarOn(t);
    StarIsSound(t);
    WithStarIsIntegral(c, sysId, star, ps);
  }

  /** Star counts: so many of the last systems' stars, in system order. */
  ghost predicate Counted(stars: seq<Star>, ps: seq<HexPlacement>) {
    forall s :: |StarsOf(stars, s)| == if 1 <= s <= |ps| then (if ps[s - 1].stars < 0 then 0 else ps[s - 1].stars) else 0
  }

  lemma NoStars()
    ensures forall s :: StarsOf([], s) == []
  {
  }

  lemma NoPlanets()
    ensures forall s :: PlanetsOf([], {s}) == []
  {
  }

  lemma PlanetsOfAppend(planets: seq<Planet>, p: Planet, ids: set<int>)
    ensures PlanetsOf(planets + [p], ids) == PlanetsOf(planets, ids) + if p.starId in ids then [p] else []
  {
    assert (planets + [p])[..|planets|] == planets;
  }

  lemma StarsOfAppend(stars: seq<Star>, x: Star, s: int)
    ensures StarsOf(stars + [x], s) == StarsOf(stars, s) + if x.systemId == s then [x] else []
  {
    assert (stars + [x])[..|stars|] == stars;
  }

  lemma {:induction false} AddStarsIsIntegral(t: Tape, c: Layout, sysId: int, count: int)
    requires Integral(c) && 1 <= sysId <= |c.systems|
    ensures var c1 := AddStarsOn(t, c, sysId, count).0;
            && Integral(c1) && c1.systems == c.systems
            && forall s :: |StarsOf(c1.stars, s)|
                 == |StarsOf(c.stars, s)| + if s == sysId && count > 0 then count else 0
    decreases count
  {
    hide Integral, StarOn;
    if count > 0 {
      var (c1, t1) := AddStarOn(t, c, sysId);
      AddStarIsIntegral(t, c, sysId);
      AddStarsIsIntegral(t1, c1, sysId, count - 1);
      forall s ensures |StarsOf(c1.stars, s)| == |StarsOf(c.stars, s)| + if s == sysId then 1 else 0 {
        StarsOfAppend(c.stars, c1.stars[|c.stars|], s);
      }
    }
  }

  /** The systems are the placements met so far. */
  ghost predicate Follows(c: Layout, ps: seq<HexPlacement>) {
    && |c.systems| == |ps| && Counted(c.stars, ps)
    && forall i :: 0 <= i < |ps| ==> c.systems[i].hex == ps[i].hex
  }

  lemma AddSystemIsIntegral(t: Tape, c: Layout, done: seq<HexPlacement>, p: HexPlacement)
    requires Integral(c) && Follows(c, done)
    ensures var c1 := AddSystemOn(t, c, p).0;
            Integral(c1) && Follows(c1, done + [p])
  {
    hide AddStarsOn;
    var sysId := |c.systems| + 1;
    var c0 := c.(systems := c.systems + [System(sysId, p.hex)]);
    forall k | 0 <= k < |c0.stars| ensures OwnsBlock(c0, k) && SoundBlock(c0, k) {
      assert OwnsBlock(c, k) && SoundBlock(c, k);
    }
    AddStarsIsIntegral(t, c0, sysId, p.stars);
  }

  lemma {:induction false} AddSystemsIsIntegral(t: Tape, c: Layout, done: seq<HexPlacement>, ps: seq<HexPlacement>)
    requires Integral(c) && Follows(c, done)
    ensures var c1 := AddSystemsOn(t, c, ps).0;
            Integral(c1) && Follows(c1, done + ps)
    decreases |ps|
  {
    hide Integral, Follows, AddSystemOn;
    if ps == [] {
      assert done + ps == done;
    } else {
      var (c1, t1) := AddSystemOn(t, c, ps[0]);
      AddSystemIsIntegral(t, c, done, ps[0]);
      AddSystemsIsIntegral(t1, c1, done + [ps[0]], ps[1..]);
      assert done + [ps[0]] + ps[1..] == done + ps;
    }
  }

  /** Every generated cluster, even after a placement error. */
  lemma ClusterIsIntegral(gen: Source, t: Tape, opts: ClusterOptions)
    ensures var (c, placed, rest) := ClusterOn(gen, t, opts);
            Integral(c) && Follows(c, placed.placements)
  {
    hide PlaceOn, AddSystemsOn;
    var (placementTape, t1) := SplitOn(gen, t);
    var (starTape, t2) := SplitOn(gen, t1);
    var placed := PlaceOn(placementTape, opts.radius, opts.numSystems, opts.minimumDistance, opts.merge).0;
    AddSystemsIsIntegral(starTape, EMPTY, [], placed.placements);
    assert [] + placed.placements == placed.placements;
  }

  // ----- the stars in the order they were rolled -----

  /** Planets as they were rolled, without identifiers and orbits. */
  function Unstamped(ps: seq<Planet>): (r: seq<Planet>)
    ensures |r| == |ps|
    ensures forall i :: 0 <= i < |ps| ==> r[i] == ps[i].(id := 0, starId := 0, orbit := 0)
  {
    seq(|ps|, i requires 0 <= i < |ps| => ps[i].(id := 0, starId := 0, orbit := 0))
  }

  /** Star k and its block of planets are what is rolled on `t`, leaving `t1`. */
  ghost predicate RolledOn(c: Layout, k: nat, t: Tape, t1: Tape)
    requires k < |c.stars|
  {
    var from, n := Offset(c.stars, k), c.stars[k].numPlanets;
    && 0 <= from && 0 <= n && from + n <= |c.planets|
    && StarOn(t) == (c.stars[k].(id := 0, systemId := 0), Unstamped(c.planets[from..from + n]), t1)
  }

  /** The stars and planets of a cluster are the stars of one stream, rolled one
      after the other and listed by system. */
  ghost predicate Rolled(c: Layout, tapes: seq<Tape>) {
    && |tapes| == |c.stars| + 1
    && (forall k :: 0 <= k < |c.stars| ==> RolledOn(c, k, tapes[k], tapes[k + 1]))
    && (forall i, j :: 0 <= i < j < |c.stars| ==> c.stars[i].systemId <= c.stars[j].systemId)
  }

  /** Stamping is undone. */
  lemma UnstampStamped(t: Tape, starId: int, firstId: int)
    ensures var (star, ps, rest) := StarOn(t);
            Unstamped(Stamped(ps, starId, firstId)) == ps && |ps| == star.numPlanets
            && star.id == star.systemId == 0
  {
    hide StarOn;
    StarHasNoIds(t);
  }

  lemma AddStarIsRolled(t: Tape, c: Layout, tapes: seq<Tape>)
    requires Integral(c) && Rolled(c, tapes) && tapes[|c.stars|] == t && |c.systems| >= 1
    ensures var (c1, t1) := AddStarOn(t, c, |c.systems|);
            Rolled(c1, tapes + [t1])
  {
    hide StarOn, OwnsBlock, SoundBlock;
    var (star, ps, t1) := StarOn(t);
    var c1, more := WithStar(c, |c.systems|, star, ps), tapes + [t1];
    var n := |c.stars|;
    UnstampStamped(t, n + 1, |c.planets| + 1);
    forall k | 0 <= k < |c1.stars| ensures RolledOn(c1, k, more[k], more[k + 1]) {
      if k < n {
        RolledStays(c, c1, k, tapes[k], tapes[k + 1]);
      } else {
        OffsetPrefix(c.stars, c1.stars[n], n);
        var from := |c.planets|;
        assert c1.planets[from..from + |ps|] == Stamped(ps, n + 1, from + 1);
      }
    }
  }

  lemma RolledStays(c: Layout, c1: Layout, k: nat, t: Tape, t1: Tape)
    requires k < |c.stars| < |c1.stars| && RolledOn(c, k, t, t1)
    requires c1.stars == c.stars + [c1.stars[|c.stars|]] && c.planets <= c1.planets
    ensures RolledOn(c1, k, t, t1)
  {
    hide StarOn;
    OffsetPrefix(c.stars, c1.stars[|c.stars|], k);
    var from, n := Offset(c.stars, k), c.stars[k].numPlanets;
    assert c1.planets[from..from + n] == c.planets[from..from + n];
  }

  lemma {:induction false} AddStarsAreRolled(t: Tape, c: Layout, tapes: seq<Tape>, count: int)
    returns (tapes1: seq<Tape>)
    requires Integral(c) && Rolled(c, tapes) && tapes[|c.stars|] == t && |c.systems| >= 1
    ensures var (c1, t1) := AddStarsOn(t, c, |c.systems|, count);
            Rolled(c1, tapes1) && tapes <= tapes1 && tapes1[|c1.stars|] == t1
    decreases count
  {
    hide Integral, StarOn, RolledOn;
    if count <= 0 {
      tapes1 := tapes;
    } else {
      var (c1, t1) := AddStarOn(t, c, |c.systems|);
      AddStarIsIntegral(t, c, |c.systems|);
      AddStarIsRolled(t, c, tapes);
      tapes1 := AddStarsAreRolled(t1, c1, tapes + [t1], count - 1);
    }
  }

  lemma {:induction false} AddSystemsAreRolled(t: Tape, c: Layout, done: seq<HexPlacement>, ps: seq<HexPlacement>,
                                               tapes: seq<Tape>) returns (tapes1: seq<Tape>)
    requires Integral(c) && Follows(c, done) && Rolled(c, tapes) && tapes[|c.stars|] == t
    ensures var (c1, t1) := AddSystemsOn(t, c, ps);
            Rolled(c1, tapes1) && tapes <= tapes1 && tapes1[|c1.stars|] == t1
    decreases |ps|
  {
    hide Integral, Follows, AddStarsOn, RolledOn;
    if ps == [] {
      tapes1 := tapes;
    } else {
      var (c1, t1) := AddSystemOn(t, c, ps[0]);
      var c0 := c.(systems := c.systems + [System(|c.systems| + 1, ps[0].hex)]);
      OneMoreSystem(c, ps[0].hex);
      RolledSystems(c, c0, tapes);
      var more := AddStarsAreRolled(t, c0, tapes, ps[0].stars);
      AddSystemIsIntegral(t, c, done, ps[0]);
      tapes1 := AddSystemsAreRolled(t1, c1, done + [ps[0]], ps[1..], more);
    }
  }

  lemma OneMoreSystem(c: Layout, hex: Axial)
    requires Integral(c)
    ensures Integral(c.(systems := c.systems + [System(|c.systems| + 1, hex)]))
  {
    var c0 := c.(systems := c.systems + [System(|c.systems| + 1, hex)]);
    forall k | 0 <= k < |c0.stars| ensures OwnsBlock(c0, k) && SoundBlock(c0, k) {
      assert OwnsBlock(c, k) && SoundBlock(c, k);
    }
  }

  lemma RolledSystems(c: Layout, c0: Layout, tapes: seq<Tape>)
    requires Rolled(c, tapes) && c0.stars == c.stars && c0.planets == c.planets
    ensures Rolled(c0, tapes)
  {
    hide StarOn;
    forall k | 0 <= k < |c0.stars| ensures RolledOn(c0, k, tapes[k], tapes[k + 1]) {
      assert RolledOn(c, k, tapes[k], tapes[k + 1]);
    }
  }

  /** The whole of a cluster is decided by two streams: the systems follow the
      placements of the first, and the stars with their planets are those the
      second rolls, one after the other, system by system. */
  lemma ClusterIsRolled(gen: Source, t: Tape, opts: ClusterOptions)
    ensures var c := ClusterOn(gen, t, opts).0;
            exists tapes :: Rolled(c, tapes) && tapes[0] == SplitOn(gen, SplitOn(gen, t).1).0
  {
    hide PlaceOn, AddSystemsOn, RolledOn, SplitOn;
    var (placementTape, t1) := SplitOn(gen, t);
    var (starTape, t2) := SplitOn(gen, t1);
    var placed := PlaceOn(placementTape, opts.radius, opts.numSystems, opts.minimumDistance, opts.merge).0;
    var tapes := AddSystemsAreRolled(starTape, EMPTY, [], placed.placements, [starTape]);
  }
}
