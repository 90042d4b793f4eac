/**
 Hex placement: a shuffled greedy loop that opens a system on a candidate hex,
 or merges or discards the candidate when a system is already near.
 */
module Placement {
  import opened Arithmetic
  import opened Counting
  import opened Hexes
  import opened Options
  import opened Prng

  datatype HexPlacement = HexPlacement(hex: Axial, stars: int)

  datatype PlacementError =
    | NegativeCount
    | NegativeRadius
    | NegativeDistance
    | ExceedsCapacity(n: int, capacity: nat)
    | CouldOnlyPlace(k: nat)

  datatype PlaceResult = PlaceResult(placements: seq<HexPlacement>, error: Option<PlacementError>)

  // ----- nearest placement within the limit -----

  /** The least distance from `c` to a placement within `limit`, or -1. */
  function BestDist(ps: seq<HexPlacement>, c: Axial, limit: int): (best: int)
    ensures -1 <= best
  {
    if ps == [] then -1 else
      var best := BestDist(ps[..|ps| - 1], c, limit);
      var d := ps[|ps| - 1].hex.Distance(c);
      if d > limit then best
      else if best < 0 || d < best then d
      else best
  }

  /** The indices at distance exactly `d`, ascending. */
  function AtDist(ps: seq<HexPlacement>, c: Axial, d: int): (found: seq<nat>)
    ensures forall i :: i in found <==> 0 <= i < |ps| && ps[i].hex.Distance(c) == d
  {
    if ps == [] then [] else
      var n := |ps| - 1;
      assert forall i :: 0 <= i < n ==> ps[..n][i] == ps[i];
      AtDist(ps[..n], c, d) + if ps[n].hex.Distance(c) == d then [n] else []
  }

  lemma NoneAtDist(ps: seq<HexPlacement>, c: Axial, d: int)
    requires forall i :: 0 <= i < |ps| ==> ps[i].hex.Distance(c) != d
    ensures AtDist(ps, c, d) == []
  {
    assert forall i :: i !in AtDist(ps, c, d);
  }

  /** The indices tied for nearest; empty when none is within the limit. */
  function Tied(ps: seq<HexPlacement>, c: Axial, limit: int): (found: seq<nat>) {
    var best := BestDist(ps, c, limit);
    if best < 0 then [] else AtDist(ps, c, best)
  }

  /** The index to merge into, or -1; only a real tie costs a draw. */
  function NearestOn(t: Tape, ps: seq<HexPlacement>, c: Axial, limit: int): (r: (int, Tape))
    ensures r.0 == -1 || r.0 in Tied(ps, c, limit)
  {
    var tied := Tied(ps, c, limit);
    if |tied| == 0 then (-1, t)
    else if |tied| == 1 then (tied[0], t)
    else
      var (k, t1) := RollOn(t, 0, |tied| - 1);
      (tied[k], t1)
  }

  lemma {:induction false} BestDistIsLeast(ps: seq<HexPlacement>, c: Axial, limit: int)
    ensures BestDist(ps, c, limit) < 0 <==> forall i :: 0 <= i < |ps| ==> ps[i].hex.Distance(c) > limit
    ensures BestDist(ps, c, limit) >= 0 ==>
              && BestDist(ps, c, limit) <= limit
              && (forall i :: 0 <= i < |ps| ==> ps[i].hex.Distance(c) >= BestDist(ps, c, limit))
              && exists i :: 0 <= i < |ps| && ps[i].hex.Distance(c) == BestDist(ps, c, limit)
  {
    hide Axial.Distance;
    if ps != [] {
      var n := |ps| - 1;
      var front := ps[..n];
      BestDistIsLeast(front, c, limit);
      assert forall i :: 0 <= i < n ==> front[i] == ps[i];
      var best, d := BestDist(front, c, limit), ps[n].hex.Distance(c);
      if best >= 0 {
        var k :| 0 <= k < n && front[k].hex.Distance(c) == best;
        assert ps[k].hex.Distance(c) == best;
      }
      assert BestDist(ps, c, limit) == if d > limit then best else if best < 0 || d < best then d else best;
    }
  }

  /** The search gives -1 exactly when no placement is within the limit;
      otherwise a placement that none is nearer than. */
  lemma NearestIsNearest(t: Tape, ps: seq<HexPlacement>, c: Axial, limit: int)
    ensures NearestOn(t, ps, c, limit).0 == -1 <==> forall i :: 0 <= i < |ps| ==> ps[i].hex.Distance(c) > limit
    ensures var idx := NearestOn(t, ps, c, limit).0;
            idx != -1 ==>
              && 0 <= idx < |ps| && ps[idx].hex.Distance(c) <= limit
              && forall i :: 0 <= i < |ps| ==> ps[idx].hex.Distance(c) <= ps[i].hex.Distance(c)
  {
    BestDistIsLeast(ps, c, limit);
    var best := BestDist(ps, c, limit);
    if best >= 0 {
      var i :| 0 <= i < |ps| && ps[i].hex.Distance(c) == best;
      assert i in AtDist(ps, c, best);
    }
  }

  /** Conversely, every nearest placement is the one picked on some tape. */
  lemma EveryTieReachable(ps: seq<HexPlacement>, c: Axial, limit: int, idx: nat)
    requires idx in Tied(ps, c, limit)
    ensures exists t :: NearestOn(t, ps, c, limit).0 == idx
  {
    var tied := Tied(ps, c, limit);
    var k :| 0 <= k < |tied| && tied[k] == idx;
    var t: Tape := [k];
    if |tied| > 1 {
      RollReaches(0, |tied| - 1, k, []);
      assert [k - 0] + [] == t;
    }
    assert NearestOn(t, ps, c, limit).0 == idx;
  }

  /** How one more placement changes the nearest ones. */
  lemma TiedGrows(ps: seq<HexPlacement>, p: HexPlacement, c: Axial, limit: int)
    ensures var best, d := BestDist(ps, c, limit), p.hex.Distance(c);
            var best1, tied1 := BestDist(ps + [p], c, limit), Tied(ps + [p], c, limit);
            && (d > limit ==> best1 == best && tied1 == Tied(ps, c, limit))
            && (d <= limit && (best < 0 || d < best) ==> best1 == d && tied1 == [|ps|])
            && (d <= limit && d == best ==> best1 == best && tied1 == Tied(ps, c, limit) + [|ps|])
            && (d <= limit && best >= 0 && d > best ==> best1 == best && tied1 == Tied(ps, c, limit))
  {
    assert (ps + [p])[..|ps|] == ps;
    BestDistIsLeast(ps, c, limit);
    var best, d := BestDist(ps, c, limit), p.hex.Distance(c);
    if d <= limit && (best < 0 || d < best) {
      NoneAtDist(ps, c, d);
    }
  }

  method NearestPlacementWithinDistance(rng: PRNG, placements: seq<HexPlacement>, candidate: Axial, limit: int)
    returns (idx: int)
    modifies rng
    ensures (idx, rng.tape) == NearestOn(old(rng.tape), placements, candidate, limit)
  {
    hide Axial.Distance;
    var bestDist := -1;
    var tied: seq<nat> := [];
    var i := 0;
    while i < |placements|
      invariant 0 <= i <= |placements|
      invariant rng.tape == old(rng.tape)
      invariant bestDist == BestDist(placements[..i], candidate, limit)
      invariant tied == Tied(placements[..i], candidate, limit)
    {
      var d := placements[i].hex.Distance(candidate);
      TiedGrows(placements[..i], placements[i], candidate, limit);
      assert placements[..i + 1] == placements[..i] + [placements[i]];
      if d <= limit {
        if bestDist < 0 || d < bestDist {
          bestDist := d;
          tied := [i];
        } else if d == bestDist {
          tied := tied + [i];
        }
      }
      i := i + 1;
    }
    assert placements[..i] == placements;
    if |tied| == 0 {
      return -1;
    }
    if |tied| == 1 {
      return tied[0];
    }
    var k := rng.Roll(0, |tied| - 1);
    idx := tied[k];
  }

  // ----- the placement loop -----

  /** One candidate consumed. */
  function StepOn(t: Tape, ps: seq<HexPlacement>, c: Axial, d: int, merge: bool): (r: (seq<HexPlacement>, Tape))
    ensures |ps| <= |r.0| <= |ps| + 1
  {
    var (idx, t1) := NearestOn(t, ps, c, d);
    if idx < 0 then (ps + [HexPlacement(c, 1)], t1)
    else if merge && ps[idx].stars < 5 then (ps[idx := ps[idx].(stars := ps[idx].stars + 1)], t1)
    else (ps, t1)
  }

  /** What the loop leaves: placements, whether n were reached, the candidates
      not looked at, and the tape. */
  datatype Run = Run(ps: seq<HexPlacement>, full: bool, left: seq<Axial>, tape: Tape)

  function LoopOn(t: Tape, ps: seq<HexPlacement>, cs: seq<Axial>, n: int, d: int, merge: bool): (r: Run)
    decreases |cs|
  {
    if cs == [] then Run(ps, false, [], t)
    else
      var (ps1, t1) := StepOn(t, ps, cs[0], d, merge);
      if |ps1| > |ps| && |ps1| == n then Run(ps1, true, cs[1..], t1)
      else LoopOn(t1, ps1, cs[1..], n, d, merge)
  }

  /** One turn of the loop at candidate k. */
  lemma LoopTurn(t: Tape, ps: seq<HexPlacement>, cs: seq<Axial>, k: nat, n: int, d: int, merge: bool)
    requires k < |cs|
    ensures var (ps1, t1) := StepOn(t, ps, cs[k], d, merge);
            LoopOn(t, ps, cs[k..], n, d, merge) == (
              if |ps1| > |ps| && |ps1| == n then Run(ps1, true, cs[k + 1..], t1)
              else LoopOn(t1, ps1, cs[k + 1..], n, d, merge))
  {
    assert cs[k..][0] == cs[k] && cs[k..][1..] == cs[k + 1..];
  }

  function PlaceOn(t: Tape, r: int, n: int, d: int, merge: bool): (res: (PlaceResult, Tape)) {
    if n < 0 then (PlaceResult([], Some(NegativeCount)), t)
    else if n == 0 then (PlaceResult([], None), t)
    else if r < 0 then (PlaceResult([], Some(NegativeRadius)), t)
    else if d < 0 then (PlaceResult([], Some(NegativeDistance)), t)
    else if n > |DiskSeq(r)| && !merge then (PlaceResult([], Some(ExceedsCapacity(n, |DiskSeq(r)|))), t)
    else
      var (cs, t1) := ShuffleOn(t, DiskSeq(r));
      var run := LoopOn(t1, [], cs, n, d, merge);
      (PlaceResult(run.ps, if run.full then None else Some(CouldOnlyPlace(|run.ps|))), run.tape)
  }

  method PlaceHexSystems(rng: PRNG, r: int, n: int, minimumDistance: int, merge: bool)
    returns (res: PlaceResult)
    modifies rng
    ensures (res, rng.tape) == PlaceOn(old(rng.tape), r, n, minimumDistance, merge)
  {
    if n < 0 {
      return PlaceResult([], Some(NegativeCount));
    } else if n == 0 {
      return PlaceResult([], None);
    }
    if r < 0 {
      return PlaceResult([], Some(NegativeRadius));
    }
    if minimumDistance < 0 {
      return PlaceResult([], Some(NegativeDistance));
    }
    var listed := Disk(r);
    if n > |listed| && !merge {
      return PlaceResult([], Some(ExceedsCapacity(n, |listed|)));
    }
    var disk := new Axial[|listed|](i requires 0 <= i < |listed| => listed[i]);
    assert disk[..] == listed;
    rng.Shuffle(disk);

    var placements, full := PlaceCandidates(rng, disk[..], n, minimumDistance, merge);
    res := PlaceResult(placements, if full then None else Some(CouldOnlyPlace(|placements|)));
  }

  /** The candidate loop of PlaceHexSystems. */
  method PlaceCandidates(rng: PRNG, disk: seq<Axial>, n: int, minimumDistance: int, merge: bool)
    returns (placements: seq<HexPlacement>, full: bool)
    modifies rng
    ensures var run := LoopOn(old(rng.tape), [], disk, n, minimumDistance, merge);
            placements == run.ps && full == run.full && rng.tape == run.tape
  {
    ghost var target := LoopOn(rng.tape, [], disk, n, minimumDistance, merge);
    assert disk[0..] == disk;
    placements := [];
    var k := 0;
    while k < |disk|
      invariant 0 <= k <= |disk|
      invariant LoopOn(rng.tape, placements, disk[k..], n, minimumDistance, merge) == target
    {
      var candidate := disk[k];
      LoopTurn(rng.tape, placements, disk, k, n, minimumDistance, merge);
      var idx := NearestPlacementWithinDistance(rng, placements, candidate, minimumDistance);
      k := k + 1;
      if idx >= 0 {
        if merge && placements[idx].stars < 5 {
          placements := placements[idx := placements[idx].(stars := placements[idx].stars + 1)];
        }
      } else {
        placements := placements + [HexPlacement(candidate, 1)];
        if |placements| == n {
          return placements, true;
        }
      }
    }
    full := false;
  }

  // ----- the simple form: first fit over the shuffled hexes -----

  function HexesOf(ps: seq<HexPlacement>): (hs: seq<Axial>)
    ensures |hs| == |ps|
    ensures forall i :: 0 <= i < |ps| ==> hs[i] == ps[i].hex
  {
    seq(|ps|, i requires 0 <= i < |ps| => ps[i].hex)
  }

  predicate Free(hs: seq<Axial>, c: Axial, d: int) {
    forall i :: 0 <= i < |hs| ==> hs[i].Distance(c) > d
  }

  /** Take each candidate that keeps its distance, until there are n. */
  function FirstFit(hs: seq<Axial>, cs: seq<Axial>, n: int, d: int): (r: seq<Axial>)
    ensures |hs| <= |r|
    decreases |cs|
  {
    if cs == [] || |hs| >= n then hs
    else FirstFit(if Free(hs, cs[0], d) then hs + [cs[0]] else hs, cs[1..], n, d)
  }

  lemma StepHexes(t: Tape, ps: seq<HexPlacement>, c: Axial, d: int, merge: bool)
    ensures HexesOf(StepOn(t, ps, c, d, merge).0)
         == if Free(HexesOf(ps), c, d) then HexesOf(ps) + [c] else HexesOf(ps)
  {
    NearestIsNearest(t, ps, c, d);
    var hs := HexesOf(ps);
    assert Free(hs, c, d) <==> forall i :: 0 <= i < |ps| ==> ps[i].hex.Distance(c) > d;
  }

  /** Merging, capping and tie-breaking never decide where a system opens. */
  lemma {:induction false} LoopIsFirstFit(t: Tape, ps: seq<HexPlacement>, cs: seq<Axial>, n: int, d: int, merge: bool)
    requires |ps| < n
    ensures var run := LoopOn(t, ps, cs, n, d, merge);
            && HexesOf(run.ps) == FirstFit(HexesOf(ps), cs, n, d)
            && (run.full <==> |run.ps| == n) && |run.ps| <= n
            && (run.full || run.left == [])
    decreases |cs|
  {
    if cs != [] {
      StepHexes(t, ps, cs[0], d, merge);
      var (ps1, t1) := StepOn(t, ps, cs[0], d, merge);
      if |ps1| < n {
        LoopIsFirstFit(t1, ps1, cs[1..], n, d, merge);
      }
    }
  }

  // ----- geometry of first fit -----

  ghost predicate Apart(hs: seq<Axial>, d: int) {
    forall i, j :: 0 <= i < j < |hs| ==> hs[i].Distance(hs[j]) > d
  }

  ghost predicate Covered(hs: seq<Axial>, c: Axial, d: int) {
    exists i :: 0 <= i < |hs| && hs[i].Distance(c) <= d
  }

  lemma {:induction false} FirstFitPacks(hs: seq<Axial>, cs: seq<Axial>, n: int, d: int)
    requires Apart(hs, d)
    ensures Apart(FirstFit(hs, cs, n, d), d)
    ensures forall h :: h in FirstFit(hs, cs, n, d) ==> h in hs || h in cs
    decreases |cs|
  {
    if cs != [] && |hs| < n {
      var next := if Free(hs, cs[0], d) then hs + [cs[0]] else hs;
      FirstFitPacks(next, cs[1..], n, d);
    }
  }

  lemma {:induction false} FirstFitExtends(hs: seq<Axial>, cs: seq<Axial>, n: int, d: int)
    ensures hs <= FirstFit(hs, cs, n, d)
    decreases |cs|
  {
    if cs != [] && |hs| < n {
      FirstFitExtends(if Free(hs, cs[0], d) then hs + [cs[0]] else hs, cs[1..], n, d);
    }
  }

  /** Short of n, every candidate ends within d of a chosen hex. */
  lemma {:induction false} FirstFitCovers(hs: seq<Axial>, cs: seq<Axial>, n: int, d: int, c: Axial)
    requires |FirstFit(hs, cs, n, d)| < n && c in cs && d >= 0
    ensures Covered(FirstFit(hs, cs, n, d), c, d)
    decreases |cs|
  {
    var next := if Free(hs, cs[0], d) then hs + [cs[0]] else hs;
    var all := FirstFit(hs, cs, n, d);
    if c == cs[0] {
      FirstFitExtends(next, cs[1..], n, d);
      DistanceIsMetric(c, c, c);
      assert next <= all;
      var i :| 0 <= i < |next| && next[i].Distance(c) <= d;
      assert all[i].Distance(c) <= d;
    } else {
      FirstFitCovers(next, cs[1..], n, d, c);
    }
  }

  /** The union of the balls of radius d round the hexes. */
  function Balls(hs: seq<Axial>, d: int): (u: set<Axial>)
  {
    if hs == [] then {} else Balls(hs[..|hs| - 1], d) + Ball(hs[|hs| - 1], d)
  }

  lemma Symmetric(a: Axial, b: Axial)
    ensures a.Distance(b) == b.Distance(a)
  {
    DistanceIsMetric(a, b, b);
  }

  lemma {:induction false} BallsMembers(hs: seq<Axial>, d: int, x: Axial)
    ensures x in Balls(hs, d) <==> exists i :: 0 <= i < |hs| && hs[i].Distance(x) <= d
  {
    if hs != [] {
      var n := |hs| - 1;
      BallsMembers(hs[..n], d, x);
      BallMembers(hs[n], d, x);
      Symmetric(hs[n], x);
      if x in Balls(hs[..n], d) {
        var i :| 0 <= i < n && hs[..n][i].Distance(x) <= d;
        assert hs[i].Distance(x) <= d;
      }
      if exists i :: 0 <= i < |hs| && hs[i].Distance(x) <= d {
        var i :| 0 <= i < |hs| && hs[i].Distance(x) <= d;
        assert i == n || hs[..n][i] == hs[i];
      }
    }
  }

  lemma OneMore(n: nat, c: nat)
    ensures (n + 1) * c == n * c + c
  {
  }

  lemma {:induction false} BallsCountAtMost(hs: seq<Axial>, d: int)
    ensures |Balls(hs, d)| <= |hs| * Capacity(d)
  {
    if hs != [] {
      var n := |hs| - 1;
      var a, b := Balls(hs[..n], d), Ball(hs[n], d);
      BallsCountAtMost(hs[..n], d);
      BallCount(hs[n], d);
      assert |a + b| <= |a| + |b|;
      OneMore(n, Capacity(d));
    }
  }

  lemma NotInFarBall(a: Axial, b: Axial, k: int, x: Axial)
    requires a.Distance(x) <= k && a.Distance(b) > 2 * k
    ensures x !in Ball(b, k)
  {
    BallMembers(b, k, x);
    Triangle(a, x, b);
  }

  lemma FarBallsDisjoint(hs: seq<Axial>, d: int, k: int, x: Axial)
    requires hs != [] && Apart(hs, d) && 2 * k <= d
    requires x in Balls(hs[..|hs| - 1], k)
    ensures x !in Ball(hs[|hs| - 1], k)
  {
    var n := |hs| - 1;
    BallsMembers(hs[..n], k, x);
    var i :| 0 <= i < n && hs[..n][i].Distance(x) <= k;
    NotInFarBall(hs[i], hs[n], k, x);
  }

  lemma {:induction false} BallsCountExactly(hs: seq<Axial>, d: int, k: int)
    requires Apart(hs, d) && 2 * k <= d
    ensures |Balls(hs, k)| == |hs| * Capacity(k)
  {
    hide Axial.Distance, Ball, Capacity;
    if hs != [] {
      var n := |hs| - 1;
      var a, b := Balls(hs[..n], k), Ball(hs[n], k);
      BallsCountExactly(hs[..n], d, k);
      BallCount(hs[n], k);
      forall x | x in a ensures x !in b {
        FarBallsDisjoint(hs, d, k, x);
      }
      assert |a + b| == |a| + |b|;
      OneMore(n, Capacity(k));
    }
  }

  /** Hexes that cover the disk are enough to fill it. */
  lemma CoveringBound(hs: seq<Axial>, r: int, d: int)
    requires forall c :: Contains(r, c) ==> Covered(hs, c, d)
    ensures Capacity(r) <= |hs| * Capacity(d)
  {
    DiskIsExact(r);
    DistinctCount(DiskSeq(r));
    forall c | c in Elems(DiskSeq(r)) ensures c in Balls(hs, d) {
      assert Covered(hs, c, d);
      BallsMembers(hs, d, c);
    }
    SubsetCount(Elems(DiskSeq(r)), Balls(hs, d));
    BallsCountAtMost(hs, d);
  }

  /** Hexes of the disk that keep their distance leave room for small balls. */
  lemma PackingBound(hs: seq<Axial>, r: int, d: int)
    requires d >= 0 && Apart(hs, d)
    requires forall h :: h in hs ==> Contains(r, h)
    ensures |hs| * Capacity(d / 2) <= Capacity(r + d / 2)
  {
    var k := d / 2;
    BallsCountExactly(hs, d, k);
    var big := DiskSeq(r + k);
    DiskIsExact(r + k);
    DistinctCount(big);
    forall x | x in Balls(hs, k) ensures x in big {
      BallsMembers(hs, k, x);
      var i :| 0 <= i < |hs| && hs[i].Distance(x) <= k;
      assert hs[i] in hs;
      DistanceIsMetric(x, hs[i], ORIGIN);
    }
    SubsetCount(Balls(hs, k), Elems(big));
  }

  // ----- the main results, for every tape -----

  ghost predicate Proper(r: int, n: int, d: int, merge: bool) {
    n >= 1 && r >= 0 && d >= 0 && (n <= Capacity(r) || merge)
  }

  lemma PlaceIsFirstFit(t: Tape, r: int, n: int, d: int, merge: bool)
    requires Proper(r, n, d, merge)
    ensures var res := PlaceOn(t, r, n, d, merge).0;
            var cs := ShuffleOn(t, DiskSeq(r)).0;
            && HexesOf(res.placements) == FirstFit([], cs, n, d)
            && |res.placements| <= n
            && (res.error.None? <==> |res.placements| == n)
            && (res.error.Some? ==> res.error.value == CouldOnlyPlace(|res.placements|))
    ensures forall c :: c in ShuffleOn(t, DiskSeq(r)).0 <==> Contains(r, c)
  {
    DiskIsExact(r);
    var (cs, t1) := ShuffleOn(t, DiskSeq(r));
    LoopIsFirstFit(t1, [], cs, n, d, merge);
    ShufflePermutes(t, DiskSeq(r));
    PermutationDistinct(DiskSeq(r), cs);
    forall c ensures c in cs <==> Contains(r, c) {
      assert c in Elems(cs) <==> c in Elems(DiskSeq(r));
    }
  }

  /** Every way to fail: bad arguments are refused one by one, in order and
      before anything is drawn; after that only running out of hexes. */
  lemma PlaceFailsIff(t: Tape, r: int, n: int, d: int, merge: bool)
    ensures var (res, rest) := PlaceOn(t, r, n, d, merge);
            && (res.error == Some(NegativeCount) <==> n < 0)
            && (res.error == Some(NegativeRadius) <==> n > 0 && r < 0)
            && (res.error == Some(NegativeDistance) <==> n > 0 && r >= 0 && d < 0)
            && (forall k: int, capacity: nat :: res.error == Some(ExceedsCapacity(k, capacity)) <==>
                  n > 0 && r >= 0 && d >= 0 && !merge && k == n && capacity == 1 + 3 * r * (r + 1) && n > capacity)
            && (forall k: nat :: res.error == Some(CouldOnlyPlace(k)) <==>
                  Proper(r, n, d, merge) && k == |res.placements| && k < n)
            && (n == 0 ==> res == PlaceResult([], None))
            && (!Proper(r, n, d, merge) ==> res.placements == [] && rest == t)
  {
    hide LoopOn, ShuffleOn;
    DiskIsExact(r);
    if Proper(r, n, d, merge) {
      PlaceIsFirstFit(t, r, n, d, merge);
    }
  }

  /** Placements are distinct hexes of the disk more than d apart. */
  lemma PlacementsKeepDistance(t: Tape, r: int, n: int, d: int, merge: bool)
    ensures var hs := HexesOf(PlaceOn(t, r, n, d, merge).0.placements);
            Apart(hs, d) && Distinct(hs) && forall h :: h in hs ==> Contains(r, h)
  {
    if Proper(r, n, d, merge) {
      PlaceIsFirstFit(t, r, n, d, merge);
      var cs := ShuffleOn(t, DiskSeq(r)).0;
      FirstFitPacks([], cs, n, d);
      var hs := HexesOf(PlaceOn(t, r, n, d, merge).0.placements);
      forall i, j | 0 <= i < j < |hs| ensures hs[i] != hs[j] {
        assert hs[i].Distance(hs[j]) > d;
      }
    } else {
      DiskIsExact(r);
    }
  }

  /** No outcome holds more systems than small balls fit. */
  lemma PlacementsFit(t: Tape, r: int, n: int, d: int, merge: bool)
    ensures |PlaceOn(t, r, n, d, merge).0.placements| * Capacity(d / 2) <= Capacity(r + d / 2)
  {
    DiskIsExact(r);
    var ps := PlaceOn(t, r, n, d, merge).0.placements;
    if ps != [] {
      PlacementsKeepDistance(t, r, n, d, merge);
      PackingBound(HexesOf(ps), r, d);
    }
  }

  /** So asking for more than fit always ends in an error. */
  lemma CrowdedAlwaysFails(t: Tape, r: int, n: int, d: int, merge: bool)
    requires n * Capacity(d / 2) > Capacity(r + d / 2)
    ensures n != 0 && PlaceOn(t, r, n, d, merge).0.error.Some?
  {
    DiskIsExact(r);
    PlacementsFit(t, r, n, d, merge);
    if Proper(r, n, d, merge) {
      PlaceIsFirstFit(t, r, n, d, merge);
    }
  }

  /** And asking for fewer than it takes to cover the disk never does. */
  lemma RoomyAlwaysSucceeds(t: Tape, r: int, n: int, d: int, merge: bool)
    requires r >= 0 && d >= 0 && n >= 1
    requires (n - 1) * Capacity(d) < Capacity(r)
    ensures var res := PlaceOn(t, r, n, d, merge).0;
            res.error.None? && |res.placements| == n
  {
    FactorGrows(n - 1, Capacity(d));
    PlaceIsFirstFit(t, r, n, d, merge);
    var hs := HexesOf(PlaceOn(t, r, n, d, merge).0.placements);
    if |hs| < n {
      var cs := ShuffleOn(t, DiskSeq(r)).0;
      forall c | Contains(r, c) ensures Covered(hs, c, d) {
        FirstFitCovers([], cs, n, d, c);
      }
      CoveringBound(hs, r, d);
      ProductMonotone(|hs|, n - 1, Capacity(d));
    }
  }

  lemma FactorGrows(a: nat, b: nat)
    requires b >= 1
    ensures a * b >= a
  {
  }

  /** Whether to merge changes star counts only, never hexes or success. */
  lemma MergeMovesNothing(t: Tape, r: int, n: int, d: int)
    requires n <= Capacity(r)
    ensures var a, b := PlaceOn(t, r, n, d, true).0, PlaceOn(t, r, n, d, false).0;
            HexesOf(a.placements) == HexesOf(b.placements) && a.error == b.error
  {
    DiskIsExact(r);
    if Proper(r, n, d, true) {
      PlaceIsFirstFit(t, r, n, d, true);
      PlaceIsFirstFit(t, r, n, d, false);
    }
  }

  // ----- stars -----

  function StarSum(ps: seq<HexPlacement>): (s: int) {
    if ps == [] then 0 else StarSum(ps[..|ps| - 1]) + ps[|ps| - 1].stars
  }

  ghost predicate StarsInRange(ps: seq<HexPlacement>, merge: bool) {
    forall i :: 0 <= i < |ps| ==> 1 <= ps[i].stars <= (if merge then 5 else 1)
  }

  /** The consumed candidates that add no star: merges into a full system, or
      every near candidate when not merging. */
  function Wasted(t: Tape, ps: seq<HexPlacement>, cs: seq<Axial>, n: int, d: int, merge: bool): (w: nat)
    decreases |cs|
  {
    if cs == [] then 0 else
      var idx := NearestOn(t, ps, cs[0], d).0;
      var (ps1, t1) := StepOn(t, ps, cs[0], d, merge);
      var here := if idx >= 0 && (merge ==> ps[idx].stars >= 5) then 1 else 0;
      if |ps1| > |ps| && |ps1| == n then here else here + Wasted(t1, ps1, cs[1..], n, d, merge)
  }

  lemma {:induction false} StarSumUpdate(ps: seq<HexPlacement>, i: nat, p: HexPlacement)
    requires i < |ps|
    ensures StarSum(ps[i := p]) == StarSum(ps) - ps[i].stars + p.stars
  {
    var n := |ps| - 1;
    if i == n {
      assert ps[i := p][..n] == ps[..n];
    } else {
      assert ps[i := p][..n] == ps[..n][i := p];
      StarSumUpdate(ps[..n], i, p);
    }
  }

  lemma StepStars(t: Tape, ps: seq<HexPlacement>, c: Axial, d: int, merge: bool)
    requires StarsInRange(ps, merge)
    ensures var idx := NearestOn(t, ps, c, d).0;
            var ps1 := StepOn(t, ps, c, d, merge).0;
            && StarsInRange(ps1, merge)
            && StarSum(ps1) == StarSum(ps) + if idx >= 0 && (merge ==> ps[idx].stars >= 5) then 0 else 1
  {
    var idx := NearestOn(t, ps, c, d).0;
    if idx < 0 {
      var ps1 := ps + [HexPlacement(c, 1)];
      assert StepOn(t, ps, c, d, merge).0 == ps1;
      assert ps1[..|ps|] == ps;
      assert StarSum(ps1) == StarSum(ps) + 1;
    } else if merge && ps[idx].stars < 5 {
      StarSumUpdate(ps, idx, ps[idx].(stars := ps[idx].stars + 1));
    }
  }

  lemma {:induction false} LoopStars(t: Tape, ps: seq<HexPlacement>, cs: seq<Axial>, n: int, d: int, merge: bool)
    requires StarsInRange(ps, merge)
    ensures var run := LoopOn(t, ps, cs, n, d, merge);
            && StarsInRange(run.ps, merge)
            && |run.left| <= |cs|
            && |cs| - |run.left| == StarSum(run.ps) - StarSum(ps) + Wasted(t, ps, cs, n, d, merge)
    decreases |cs|
  {
    if cs != [] {
      StepStars(t, ps, cs[0], d, merge);
      var (ps1, t1) := StepOn(t, ps, cs[0], d, merge);
      if !(|ps1| > |ps| && |ps1| == n) {
        LoopStars(t1, ps1, cs[1..], n, d, merge);
      }
    }
  }

  // ----- who gets the star -----

  /** A placement within d of the hex that no placement is nearer to. */
  ghost predicate Nearest(ps: seq<HexPlacement>, c: Axial, d: int, i: int) {
    && 0 <= i < |ps| && ps[i].hex.Distance(c) <= d
    && forall j :: 0 <= j < |ps| ==> ps[i].hex.Distance(c) <= ps[j].hex.Distance(c)
  }

  /** `b` is `a` with one more star at i, up to five. */
  ghost predicate OneMoreAt(a: seq<HexPlacement>, b: seq<HexPlacement>, i: int) {
    && 0 <= i < |a| == |b| && (forall j :: 0 <= j < |a| && j != i ==> b[j] == a[j])
    && b[i].hex == a[i].hex && b[i].stars == if a[i].stars + 1 <= 5 then a[i].stars + 1 else 5
  }

  /** A candidate opens a system when none is within d. Otherwise it adds a star
      to a nearest system, up to five, when merging, and is dropped when not. */
  lemma StepFeedsNearest(t: Tape, ps: seq<HexPlacement>, c: Axial, d: int, merge: bool)
    requires StarsInRange(ps, merge)
    ensures var ps1 := StepOn(t, ps, c, d, merge).0;
            if forall i :: 0 <= i < |ps| ==> ps[i].hex.Distance(c) > d then ps1 == ps + [HexPlacement(c, 1)]
            else if merge then exists i :: Nearest(ps, c, d, i) && OneMoreAt(ps, ps1, i)
            else ps1 == ps
  {
    hide Axial.Distance, NearestOn;
    NearestIsNearest(t, ps, c, d);
    var idx := NearestOn(t, ps, c, d).0;
    if idx >= 0 {
      assert Nearest(ps, c, d, idx);
      assert merge ==> OneMoreAt(ps, StepOn(t, ps, c, d, merge).0, idx);
    }
  }

  /** How many of the candidates went to placement i. */
  function Fed(goes: seq<nat>, i: nat): (n: nat) {
    multiset(goes)[i]
  }

  /** Candidate k went to placement goes[k], which candidate
      origin[goes[k]] had opened: itself when every earlier placement is more
      than d away, otherwise one within d that no earlier one is nearer than. */
  ghost predicate GoesTo(done: seq<Axial>, ps: seq<HexPlacement>, goes: seq<nat>, origin: seq<nat>, d: int, k: nat)
    requires k < |done| == |goes| && |origin| == |ps|
  {
    var i := goes[k];
    && i < |ps| && origin[i] <= k
    && if origin[i] == k then forall j :: 0 <= j < |ps| && origin[j] < k ==> ps[j].hex.Distance(done[k]) > d
       else
         && ps[i].hex.Distance(done[k]) <= d
         && forall j :: 0 <= j < |ps| && origin[j] < k ==> ps[i].hex.Distance(done[k]) <= ps[j].hex.Distance(done[k])
  }

  /** The systems are the candidates that opened one, in order, and hold a star
      for every candidate that went to them, up to five when merging. */
  ghost predicate Assigned(done: seq<Axial>, ps: seq<HexPlacement>, goes: seq<nat>, origin: seq<nat>, d: int,
                           merge: bool)
  {
    && |goes| == |done| && |origin| == |ps|
    && (forall i :: 0 <= i < |ps| ==>
          origin[i] < |done| && ps[i].hex == done[origin[i]] && goes[origin[i]] == i)
    && (forall i, j :: 0 <= i < j < |ps| ==> origin[i] < origin[j])
    && (forall k :: 0 <= k < |done| ==> GoesTo(done, ps, goes, origin, d, k))
    && forall i :: 0 <= i < |ps| ==>
         ps[i].stars == if !merge then 1 else if Fed(goes, i) <= 5 then Fed(goes, i) else 5
  }

  lemma FedMore(goes: seq<nat>, x: nat, i: nat)
    ensures Fed(goes + [x], i) == Fed(goes, i) + if i == x then 1 else 0
  {
  }

  lemma AssignedRange(done: seq<Axial>, ps: seq<HexPlacement>, goes: seq<nat>, origin: seq<nat>, d: int, merge: bool)
    requires Assigned(done, ps, goes, origin, d, merge)
    ensures StarsInRange(ps, merge)
  {
    hide Axial.Distance;
    forall i | 0 <= i < |ps| ensures 1 <= ps[i].stars <= if merge then 5 else 1 {
      assert goes[origin[i]] in multiset(goes);
    }
  }

  /** Candidates already assigned stay where they are. */
  lemma GoesToStays(done: seq<Axial>, ps: seq<HexPlacement>, goes: seq<nat>, origin: seq<nat>, d: int, k: nat,
                    c: Axial, x: nat, ps1: seq<HexPlacement>, origin1: seq<nat>)
    requires k < |done| == |goes| && |origin| == |ps| && GoesTo(done, ps, goes, origin, d, k)
    requires |ps| <= |ps1| == |origin1| && origin <= origin1
    requires forall i :: 0 <= i < |ps| ==> ps1[i].hex == ps[i].hex
    requires forall i :: |ps| <= i < |ps1| ==> origin1[i] == |done|
    ensures GoesTo(done + [c], ps1, goes + [x], origin1, d, k)
  {
    hide Axial.Distance;
  }

  lemma OpensNext(done: seq<Axial>, ps: seq<HexPlacement>, goes: seq<nat>, origin: seq<nat>, c: Axial, d: int,
                  merge: bool)
    requires Assigned(done, ps, goes, origin, d, merge)
    requires forall i :: 0 <= i < |ps| ==> ps[i].hex.Distance(c) > d
    ensures Assigned(done + [c], ps + [HexPlacement(c, 1)], goes + [|ps|], origin + [|done|], d, merge)
  {
    hide Axial.Distance, GoesTo, Fed;
    var done1, ps1, goes1, origin1 := done + [c], ps + [HexPlacement(c, 1)], goes + [|ps|], origin + [|done|];
    forall k | 0 <= k < |done1| ensures GoesTo(done1, ps1, goes1, origin1, d, k) {
      if k < |done| {
        GoesToStays(done, ps, goes, origin, d, k, c, |ps|, ps1, origin1);
      } else {
        LastGoesTo(done1, ps1, goes1, origin1, d);
      }
    }
    forall i | 0 <= i < |ps1|
      ensures ps1[i].stars == if !merge then 1 else if Fed(goes1, i) <= 5 then Fed(goes1, i) else 5
    {
      FedMore(goes, |ps|, i);
      if i == |ps| {
        NoneFed(done, ps, goes, origin, d);
      }
    }
  }

  lemma LastGoesTo(done: seq<Axial>, ps: seq<HexPlacement>, goes: seq<nat>, origin: seq<nat>, d: int)
    requires |done| == |goes| > 0 && |origin| == |ps|
    requires var k, i := |done| - 1, goes[|done| - 1];
             && i < |ps| && origin[i] <= k
             && (origin[i] == k ==> forall j :: 0 <= j < |ps| && origin[j] < k ==> ps[j].hex.Distance(done[k]) > d)
             && (origin[i] < k ==>
                   && ps[i].hex.Distance(done[k]) <= d
                   && forall j :: 0 <= j < |ps| ==> ps[i].hex.Distance(done[k]) <= ps[j].hex.Distance(done[k]))
    ensures GoesTo(done, ps, goes, origin, d, |done| - 1)
  {
    hide Axial.Distance;
  }

  lemma NoneFed(done: seq<Axial>, ps: seq<HexPlacement>, goes: seq<nat>, origin: seq<nat>, d: int)
    requires |goes| == |done| && |origin| == |ps|
    requires forall k :: 0 <= k < |done| ==> GoesTo(done, ps, goes, origin, d, k)
    ensures Fed(goes, |ps|) == 0
  {
    hide Axial.Distance;
    forall k | 0 <= k < |goes| ensures goes[k] != |ps| {
      assert GoesTo(done, ps, goes, origin, d, k);
    }
  }

  lemma FeedsOne(done: seq<Axial>, ps: seq<HexPlacement>, goes: seq<nat>, origin: seq<nat>, c: Axial, d: int,
                 merge: bool, i: nat, ps1: seq<HexPlacement>)
    requires Assigned(done, ps, goes, origin, d, merge) && Nearest(ps, c, d, i)
    requires if merge then OneMoreAt(ps, ps1, i) else ps1 == ps
    ensures Assigned(done + [c], ps1, goes + [i], origin, d, merge)
  {
    hide Axial.Distance, GoesTo, Fed;
    var done1, goes1 := done + [c], goes + [i];
    forall k | 0 <= k < |done1| ensures GoesTo(done1, ps1, goes1, origin, d, k) {
      if k < |done| {
        GoesToStays(done, ps, goes, origin, d, k, c, i, ps1, origin);
      } else {
        LastGoesTo(done1, ps1, goes1, origin, d);
      }
    }
    forall j | 0 <= j < |ps1|
      ensures ps1[j].stars == if !merge then 1 else if Fed(goes1, j) <= 5 then Fed(goes1, j) else 5
    {
      FedMore(goes, i, j);
    }
  }

  lemma StepAssigns(t: Tape, done: seq<Axial>, ps: seq<HexPlacement>, goes: seq<nat>, origin: seq<nat>, c: Axial,
                    d: int, merge: bool) returns (goes1: seq<nat>, origin1: seq<nat>)
    requires Assigned(done, ps, goes, origin, d, merge)
    ensures var ps1 := StepOn(t, ps, c, d, merge).0;
            && Assigned(done + [c], ps1, goes1, origin1, d, merge)
            && (|ps1| > |ps| ==> origin1[|ps|] == |done|)
  {
    hide Axial.Distance, Assigned, StepOn, GoesTo;
    AssignedRange(done, ps, goes, origin, d, merge);
    StepFeedsNearest(t, ps, c, d, merge);
    var ps1 := StepOn(t, ps, c, d, merge).0;
    AssignedLengths(done, ps, goes, origin, d, merge);
    if forall i :: 0 <= i < |ps| ==> ps[i].hex.Distance(c) > d {
      goes1, origin1 := goes + [|ps|], origin + [|done|];
      OpensNext(done, ps, goes, origin, c, d, merge);
    } else {
      NearestExists(ps, c, d);
      var i: nat :| Nearest(ps, c, d, i) && if merge then OneMoreAt(ps, ps1, i) else ps1 == ps;
      goes1, origin1 := goes + [i], origin;
      FeedsOne(done, ps, goes, origin, c, d, merge, i, ps1);
    }
  }

  lemma AssignedLengths(done: seq<Axial>, ps: seq<HexPlacement>, goes: seq<nat>, origin: seq<nat>, d: int, merge: bool)
    requires Assigned(done, ps, goes, origin, d, merge)
    ensures |goes| == |done| && |origin| == |ps|
  {
  }

  lemma NearestExists(ps: seq<HexPlacement>, c: Axial, d: int)
    requires exists i :: 0 <= i < |ps| && ps[i].hex.Distance(c) <= d
    ensures exists i :: Nearest(ps, c, d, i)
  {
    hide Axial.Distance, NearestOn;
    NearestIsNearest([], ps, c, d);
    assert Nearest(ps, c, d, NearestOn([], ps, c, d).0);
  }

  lemma {:induction false} LoopAssigns(t: Tape, done: seq<Axial>, ps: seq<HexPlacement>, goes: seq<nat>,
                                       origin: seq<nat>, cs: seq<Axial>, n: int, d: int, merge: bool)
    returns (used: seq<Axial>, goes1: seq<nat>, origin1: seq<nat>)
    requires Assigned(done, ps, goes, origin, d, merge)
    ensures var run := LoopOn(t, ps, cs, n, d, merge);
            && cs == used + run.left && Assigned(done + used, run.ps, goes1, origin1, d, merge)
            && (!run.full ==> run.left == [])
            && (run.full ==> run.ps != [] && origin1[|run.ps| - 1] + 1 == |done + used|)
    decreases |cs|
  {
    hide Assigned, StepOn;
    if cs == [] {
      used, goes1, origin1 := [], goes, origin;
      assert done + used == done;
    } else {
      var (ps1, t1) := StepOn(t, ps, cs[0], d, merge);
      var a1, o1 := StepAssigns(t, done, ps, goes, origin, cs[0], d, merge);
      AssignedLengths(done + [cs[0]], ps1, a1, o1, d, merge);
      if |ps1| > |ps| && |ps1| == n {
        used, goes1, origin1 := [cs[0]], a1, o1;
      } else {
        used, goes1, origin1 := LoopAssigns(t1, done + [cs[0]], ps1, a1, o1, cs[1..], n, d, merge);
        assert done + [cs[0]] + used == done + ([cs[0]] + used);
        used := [cs[0]] + used;
      }
    }
  }

  /** Every candidate up to the one that opens system n, or all of them, went to
      the system it origin or to a nearest one within d at that time, and each
      system holds a star for each candidate that went to it, up to five. */
  lemma CandidatesFeedNearest(t: Tape, r: int, n: int, d: int, merge: bool)
    requires Proper(r, n, d, merge)
    ensures var cs := ShuffleOn(t, DiskSeq(r)).0;
            var res := PlaceOn(t, r, n, d, merge).0;
            exists used, goes, origin ::
              && used <= cs && Assigned(used, res.placements, goes, origin, d, merge)
              && (res.error.Some? ==> used == cs)
              && (res.error.None? ==> |res.placements| == n && origin[n - 1] + 1 == |used|)
  {
    hide Axial.Distance, LoopOn, Assigned;
    DiskIsExact(r);
    PlaceIsFirstFit(t, r, n, d, merge);
    var (cs, t1) := ShuffleOn(t, DiskSeq(r));
    NothingAssigned(d, merge);
    var used, goes, origin := LoopAssigns(t1, [], [], [], [], cs, n, d, merge);
    assert [] + used == used;
    AssignedLengths(used, LoopOn(t1, [], cs, n, d, merge).ps, goes, origin, d, merge);
  }

  lemma NothingAssigned(d: int, merge: bool)
    ensures Assigned([], [], [], [], d, merge)
  {
  }

  lemma {:induction false} SingleStars(ps: seq<HexPlacement>)
    requires StarsInRange(ps, false)
    ensures StarSum(ps) == |ps|
  {
    if ps != [] {
      SingleStars(ps[..|ps| - 1]);
    }
  }

  /** Every consumed candidate became a star or was one of the wasted ones;
      systems hold 1 to 5 stars, or exactly one when not merging. */
  lemma StarsAreConserved(t: Tape, r: int, n: int, d: int, merge: bool)
    requires Proper(r, n, d, merge)
    ensures var (cs, t1) := ShuffleOn(t, DiskSeq(r));
            var run := LoopOn(t1, [], cs, n, d, merge);
            && run.ps == PlaceOn(t, r, n, d, merge).0.placements
            && StarsInRange(run.ps, merge)
            && |cs| - |run.left| == StarSum(run.ps) + Wasted(t1, [], cs, n, d, merge)
            && (!merge ==> StarSum(run.ps) == |run.ps|)
            && (!run.full ==> Capacity(r) == StarSum(run.ps) + Wasted(t1, [], cs, n, d, merge))
  {
    DiskIsExact(r);
    var (cs, t1) := ShuffleOn(t, DiskSeq(r));
    LoopStars(t1, [], cs, n, d, merge);
    LoopIsFirstFit(t1, [], cs, n, d, merge);
    if !merge {
      SingleStars(LoopOn(t1, [], cs, n, d, merge).ps);
    }
  }
}
