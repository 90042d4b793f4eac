/** What the cluster lookups return on a generated cluster. */
module Lookups {
  import opened Clusters
  import opened Generator
  import opened Placement

  /** The block of planets of star k. */
  function Block(c: Layout, k: nat): (b: seq<Planet>)
    requires k < |c.stars| && BlockFits(c, k)
  {
    c.planets[Offset(c.stars, k)..Offset(c.stars, k + 1)]
  }

  predicate BlockFits(c: Layout, k: nat)
    requires k < |c.stars|
  {
    0 <= Offset(c.stars, k) <= Offset(c.stars, k + 1) <= |c.planets|
  }

  ghost predicate BlocksFit(c: Layout) {
    forall k :: 0 <= k < |c.stars| ==> BlockFits(c, k)
  }

  lemma IntegralBlocksFit(c: Layout)
    requires Integral(c)
    ensures BlocksFit(c)
  {
    forall k | 0 <= k < |c.stars| ensures BlockFits(c, k) {
      assert OwnsBlock(c, k);
    }
  }

  /** The blocks of the first j stars that have their identifier in `ids`. */
  function Blocks(c: Layout, j: nat, ids: set<int>): (r: seq<Planet>)
    requires BlocksFit(c) && j <= |c.stars|
  {
    if j == 0 then []
    else Blocks(c, j - 1, ids) + if j in ids then Block(c, j - 1) else []
  }

  lemma {:induction false} FilterUniform(a: seq<Planet>, b: seq<Planet>, starId: int, ids: set<int>)
    requires forall i :: 0 <= i < |b| ==> b[i].starId == starId
    ensures PlanetsOf(a + b, ids) == PlanetsOf(a, ids) + if starId in ids then b else []
    decreases |b|
  {
    if b == [] {
      assert a + b == a;
    } else {
      var n := |b| - 1;
      FilterUniform(a, b[..n], starId, ids);
      assert a + b == (a + b[..n]) + [b[n]];
      PlanetsOfAppend(a + b[..n], b[n], ids);
      assert b[..n] + [b[n]] == b;
    }
  }

  lemma BlockIsUniform(c: Layout, k: nat)
    requires Integral(c) && k < |c.stars| && BlockFits(c, k)
    ensures forall i :: 0 <= i < |Block(c, k)| ==> Block(c, k)[i].starId == k + 1
    ensures 0 <= Offset(c.stars, k + 1) <= |c.planets|
    ensures c.planets[..Offset(c.stars, k + 1)] == c.planets[..Offset(c.stars, k)] + Block(c, k)
  {
    assert OwnsBlock(c, k);
  }

  lemma {:induction false} FilterIsBlocks(c: Layout, j: nat, ids: set<int>)
    requires Integral(c) && BlocksFit(c) && j <= |c.stars|
    ensures 0 <= Offset(c.stars, j) <= |c.planets|
    ensures PlanetsOf(c.planets[..Offset(c.stars, j)], ids) == Blocks(c, j, ids)
  {
    hide PlanetsOf, Integral;
    if j == 0 {
      assert PlanetsOf([], ids) == [] by { NonePass(ids); }
      assert c.planets[..Offset(c.stars, 0)] == [];
    } else {
      FilterIsBlocks(c, j - 1, ids);
      BlockIsUniform(c, j - 1);
      var a, b := c.planets[..Offset(c.stars, j - 1)], Block(c, j - 1);
      FilterUniform(a, b, j, ids);
    }
  }

  lemma NonePass(ids: set<int>)
    ensures PlanetsOf([], ids) == []
  {
  }

  lemma {:induction false} OneBlock(c: Layout, j: nat, k: nat)
    requires BlocksFit(c) && j <= |c.stars| && k < |c.stars|
    ensures Blocks(c, j, {k + 1}) == if k < j then Block(c, k) else []
  {
    hide Block;
    if j > 0 {
      OneBlock(c, j - 1, k);
    }
  }

  lemma FilterAll(c: Layout, ids: set<int>)
    requires Integral(c) && BlocksFit(c)
    ensures PlanetsOf(c.planets, ids) == Blocks(c, |c.stars|, ids)
  {
    FilterIsBlocks(c, |c.stars|, ids);
    assert c.planets[..Offset(c.stars, |c.stars|)] == c.planets;
  }

  /** PlanetsForStar returns the star's block: exactly numPlanets planets, at
      orbits 1, 2, ... in order, with consecutive identifiers. */
  lemma PlanetsForStarIsBlock(c: Layout, k: nat)
    requires Integral(c) && k < |c.stars|
    ensures var out := PlanetsOf(c.planets, {k + 1});
            && |out| == c.stars[k].numPlanets
            && forall i :: 0 <= i < |out| ==> out[i].orbit == i + 1 && out[i].id == out[0].id + i
  {
    hide PlanetsOf;
    IntegralBlocksFit(c);
    FilterAll(c, {k + 1});
    OneBlock(c, |c.stars|, k);
    assert OwnsBlock(c, k);
  }

  /** The planets of each star in turn. */
  function PlanetsByStar(c: Layout, stars: seq<Star>): (r: seq<Planet>) {
    if stars == [] then []
    else PlanetsByStar(c, stars[..|stars| - 1]) + PlanetsOf(c.planets, {stars[|stars| - 1].id})
  }

  lemma ByStarAppend(c: Layout, stars: seq<Star>, s: Star)
    ensures PlanetsByStar(c, stars + [s]) == PlanetsByStar(c, stars) + PlanetsOf(c.planets, {s.id})
  {
    assert (stars + [s])[..|stars|] == stars;
  }

  lemma {:induction false} StarsOfMember(stars: seq<Star>, sysId: int, s: Star)
    ensures s in StarsOf(stars, sysId) <==> s in stars && s.systemId == sysId
  {
    if stars != [] {
      var n := |stars| - 1;
      StarsOfMember(stars[..n], sysId, s);
      assert stars == stars[..n] + [stars[n]];
    }
  }

  lemma OwnedBySystem(c: Layout, sysId: int, j: nat)
    requires Sequential(c) && 1 <= j <= |c.stars|
    ensures j in IdsOf(StarsOf(c.stars, sysId)) <==> c.stars[j - 1].systemId == sysId
  {
    var own := StarsOf(c.stars, sysId);
    StarsOfMember(c.stars, sysId, c.stars[j - 1]);
    if j in IdsOf(own) {
      var s :| s in own && s.id == j;
      StarsOfMember(c.stars, sysId, s);
      var i :| 0 <= i < |c.stars| && c.stars[i] == s;
    }
  }

  lemma {:induction false} BlocksByStar(c: Layout, sysId: int, j: nat)
    requires Integral(c) && BlocksFit(c) && j <= |c.stars|
    ensures Blocks(c, j, IdsOf(StarsOf(c.stars, sysId))) == PlanetsByStar(c, StarsOf(c.stars[..j], sysId))
  {
    hide PlanetsOf, IdsOf, StarsOf, Block;
    if j == 0 {
      assert StarsOf([], sysId) == [] by { NoStars(); }
      assert c.stars[..0] == [];
    } else {
      var s := c.stars[j - 1];
      var ids := IdsOf(StarsOf(c.stars, sysId));
      BlocksByStar(c, sysId, j - 1);
      assert Blocks(c, j, ids) == Blocks(c, j - 1, ids) + if j in ids then Block(c, j - 1) else [];
      assert c.stars[..j] == c.stars[..j - 1] + [s];
      StarsOfAppend(c.stars[..j - 1], s, sysId);
      OwnedBySystem(c, sysId, j);
      if s.systemId == sysId {
        ByStarAppend(c, StarsOf(c.stars[..j - 1], sysId), s);
        FilterAll(c, {j});
        OneBlock(c, |c.stars|, j - 1);
        assert s.id == j;
      } else {
        assert StarsOf(c.stars[..j], sysId) == StarsOf(c.stars[..j - 1], sysId);
      }
    }
  }

  /** PlanetsForSystem is PlanetsForStar over StarsForSystem, in order. */
  lemma PlanetsForSystemIsByStar(c: Layout, sysId: int)
    requires Integral(c)
    ensures PlanetsOf(c.planets, IdsOf(StarsOf(c.stars, sysId))) == PlanetsByStar(c, StarsOf(c.stars, sysId))
  {
    hide PlanetsOf, IdsOf;
    IntegralBlocksFit(c);
    FilterAll(c, IdsOf(StarsOf(c.stars, sysId)));
    BlocksByStar(c, sysId, |c.stars|);
    assert c.stars[..|c.stars|] == c.stars;
  }

  // ----- multi-star systems -----

  function CountMulti(ps: seq<HexPlacement>): (n: int) {
    if ps == [] then 0 else CountMulti(ps[..|ps| - 1]) + if ps[|ps| - 1].stars > 1 then 1 else 0
  }

  predicate IsMulti(ps: seq<HexPlacement>, s: int)
    requires 1 <= s <= |ps|
  {
    ps[s - 1].stars > 1
  }

  function MultiIds(ps: seq<HexPlacement>, k: nat): (ids: set<int>)
    requires k <= |ps|
  {
    set s | 1 <= s <= k && IsMulti(ps, s)
  }

  lemma {:induction false} MultiIdsCount(ps: seq<HexPlacement>, k: nat)
    requires k <= |ps|
    ensures |MultiIds(ps, k)| == CountMulti(ps[..k])
  {
    if k > 0 {
      MultiIdsCount(ps, k - 1);
      assert ps[..k][..k - 1] == ps[..k - 1];
      var extra: set<int> := if ps[k - 1].stars > 1 then {k} else {};
      assert MultiIds(ps, k) == MultiIds(ps, k - 1) + extra;
    } else {
      assert MultiIds(ps, 0) == {};
    }
  }

  /** CountMultiStarSystems counts the placements with more than one star. */
  lemma MultiStarIsPlacements(c: Layout, ps: seq<HexPlacement>)
    requires Follows(c, ps)
    ensures |MultiStar(c.stars)| == CountMulti(ps)
  {
    hide StarsOf;
    forall s ensures s in MultiStar(c.stars) <==> s in MultiIds(ps, |ps|) {
      assert |StarsOf(c.stars, s)| == if 1 <= s <= |ps| then (if ps[s - 1].stars < 0 then 0 else ps[s - 1].stars) else 0;
      if |StarsOf(c.stars, s)| > 1 {
        HasStar(c.stars, s);
      }
    }
    assert MultiStar(c.stars) == MultiIds(ps, |ps|);
    MultiIdsCount(ps, |ps|);
    assert ps[..|ps|] == ps;
  }

  lemma HasStar(stars: seq<Star>, s: int)
    requires |StarsOf(stars, s)| > 0
    ensures exists k :: 0 <= k < |stars| && stars[k].systemId == s
  {
    var x := StarsOf(stars, s)[0];
    StarsOfMember(stars, s, x);
    var k :| 0 <= k < |stars| && stars[k] == x;
  }
}
