/** Axial hex coordinates: the metric, the walk it measures, and the disk. */
module Hexes {
  import opened Counting

  function Abs(n: int): (r: nat) {
    if n < 0 then -n else n
  }

  function Max(a: int, b: int): (r: int) {
    if a < b then b else a
  }

  function Min(a: int, b: int): (r: int) {
    if a < b then a else b
  }

  function Longest(dq: int, dr: int, ds: int): (d: nat) {
    Max(Max(Abs(dq), Abs(dr)), Abs(ds))
  }

  datatype Axial = Axial(q: int, r: int) {
    function S(): (s: int) {
      -q - r
    }

    function Distance(other: Axial): (d: nat) {
      Longest(q - other.q, r - other.r, S() - other.S())
    }

    function Neighbors(): (ns: seq<Axial>) {
      [Axial(q + 1, r), Axial(q + 1, r - 1), Axial(q, r - 1),
       Axial(q - 1, r), Axial(q - 1, r + 1), Axial(q, r + 1)]
    }

    function Plus(o: Axial): (s: Axial) {
      Axial(q + o.q, r + o.r)
    }
  }

  const ORIGIN := Axial(0, 0)

  // ----- the metric -----

  lemma HalfSum(a: Axial, b: Axial)
    ensures 2 * a.Distance(b) == Abs(a.q - b.q) + Abs(a.r - b.r) + Abs(a.S() - b.S())
  {
  }

  lemma AbsTriangle(x: int, y: int)
    ensures Abs(x + y) <= Abs(x) + Abs(y)
  {
  }

  lemma Triangle(a: Axial, b: Axial, c: Axial)
    ensures a.Distance(c) <= a.Distance(b) + b.Distance(c)
  {
    AbsTriangle(a.q - b.q, b.q - c.q);
    AbsTriangle(a.r - b.r, b.r - c.r);
    AbsTriangle(a.S() - b.S(), b.S() - c.S());
    LargestOfThree(a, b);
    LargestOfThree(b, c);
  }

  lemma LargestOfThree(a: Axial, b: Axial)
    ensures Abs(a.q - b.q) <= a.Distance(b)
    ensures Abs(a.r - b.r) <= a.Distance(b)
    ensures Abs(a.S() - b.S()) <= a.Distance(b)
  {
  }

  lemma DistanceIsMetric(a: Axial, b: Axial, c: Axial)
    ensures a.Distance(b) == 0 <==> a == b
    ensures a.Distance(b) == b.Distance(a)
    ensures a.Distance(c) <= a.Distance(b) + b.Distance(c)
  {
    HalfSum(a, b);
    HalfSum(b, a);
    Triangle(a, b, c);
  }

  ghost predicate IsWalk(w: seq<Axial>, a: Axial, b: Axial) {
    && w != [] && w[0] == a && w[|w| - 1] == b
    && forall i :: 0 <= i < |w| - 1 ==> w[i + 1] in w[i].Neighbors()
  }

  /** The neighbour one step nearer to the target. */
  function Toward(a: Axial, b: Axial): (n: Axial)
    requires a != b
    ensures n in a.Neighbors() && n.Distance(b) == a.Distance(b) - 1
  {
    var dq, dr, ds := b.q - a.q, b.r - a.r, b.S() - a.S();
    HalfSum(a, b);
    if dq > 0 && dr < 0 then a.Neighbors()[1]
    else if dq < 0 && dr > 0 then a.Neighbors()[4]
    else if dq > 0 && ds < 0 then a.Neighbors()[0]
    else if dq < 0 && ds > 0 then a.Neighbors()[3]
    else if dr > 0 then a.Neighbors()[5]
    else a.Neighbors()[2]
  }

  function ShortWalk(a: Axial, b: Axial): (w: seq<Axial>)
    ensures IsWalk(w, a, b) && |w| - 1 == a.Distance(b)
    decreases a.Distance(b)
  {
    if a == b then [a] else
      var rest := ShortWalk(Toward(a, b), b);
      var w := [a] + rest;
      assert forall i :: 0 < i < |w| ==> w[i] == rest[i - 1];
      w
  }

  lemma {:induction false} WalkIsNoShorter(w: seq<Axial>, a: Axial, b: Axial)
    requires IsWalk(w, a, b)
    ensures |w| - 1 >= a.Distance(b)
    decreases |w|
  {
    if |w| > 1 {
      assert w[0 + 1] in w[0].Neighbors();
      WalkIsNoShorter(w[1..], w[1], b);
      DistanceIsMetric(a, w[1], b);
      assert a.Distance(w[1]) == 1;
    }
  }

  /** Distance is the length of a shortest walk through neighbours. */
  lemma DistanceIsShortestWalk(a: Axial, b: Axial)
    ensures exists w :: IsWalk(w, a, b) && |w| - 1 == a.Distance(b)
    ensures forall w :: IsWalk(w, a, b) ==> |w| - 1 >= a.Distance(b)
  {
    var short := ShortWalk(a, b);
    assert IsWalk(short, a, b);
    forall w | IsWalk(w, a, b) ensures |w| - 1 >= a.Distance(b) {
      WalkIsNoShorter(w, a, b);
    }
  }

  // ----- the disk -----

  function Capacity(r: int): (n: nat)
    ensures r >= 0 ==> n >= 1
  {
    if r < 0 then 0 else
      assert 3 * r * (r + 1) >= 0;
      1 + 3 * r * (r + 1)
  }

  predicate Contains(r: int, h: Axial) {
    h.Distance(ORIGIN) <= r
  }

  function RMin(r: int, q: int): (m: int) { Max(-r, -q - r) }

  function RMax(r: int, q: int): (m: int) { Min(r, -q + r) }

  /** The hexes of column q from row `lo` to `hi`. */
  function Column(q: int, lo: int, hi: int): (c: seq<Axial>) {
    seq(if hi < lo then 0 else hi + 1 - lo, i => Axial(q, lo + i))
  }

  lemma ColumnMembers(q: int, lo: int, hi: int, h: Axial)
    ensures h in Column(q, lo, hi) <==> h.q == q && lo <= h.r <= hi
  {
    if h.q == q && lo <= h.r <= hi {
      assert Column(q, lo, hi)[h.r - lo] == h;
    }
  }

  /** The columns from q outward to r. */
  function DiskFrom(r: int, q: int): (s: seq<Axial>)
    decreases r - q
  {
    if q > r then [] else Column(q, RMin(r, q), RMax(r, q)) + DiskFrom(r, q + 1)
  }

  function DiskSeq(r: int): (s: seq<Axial>) {
    if r < 0 then [] else DiskFrom(r, -r)
  }

  method Disk(r: int) returns (hexes: seq<Axial>)
    ensures hexes == DiskSeq(r)
  {
    if r < 0 {
      return [];
    }
    hexes := [];
    var q := -r;
    while q <= r
      invariant -r <= q <= r + 1
      invariant hexes + DiskFrom(r, q) == DiskSeq(r)
      decreases r - q
    {
      DiskTurn(hexes, r, q);
      hexes := AppendColumn(hexes, q, Max(-r, -q - r), Min(r, -q + r));
      q := q + 1;
    }
  }

  lemma DiskTurn(before: seq<Axial>, r: int, q: int)
    requires q <= r
    ensures before + DiskFrom(r, q) == before + Column(q, RMin(r, q), RMax(r, q)) + DiskFrom(r, q + 1)
  {
  }

  /** The inner loop of Disk. */
  method AppendColumn(before: seq<Axial>, q: int, rMin: int, rMax: int) returns (hexes: seq<Axial>)
    ensures hexes == before + Column(q, rMin, rMax)
  {
    hexes := before;
    var rr := rMin;
    while rr <= rMax
      invariant rr <= Max(rMin, rMax + 1)
      invariant hexes == before + Column(q, rMin, rr - 1)
      invariant rMin <= rr
      decreases rMax - rr
    {
      ColumnGrows(q, rMin, rr);
      hexes := hexes + [Axial(q, rr)];
      rr := rr + 1;
    }
  }

  lemma ColumnGrows(q: int, lo: int, hi: int)
    requires lo <= hi
    ensures Column(q, lo, hi) == Column(q, lo, hi - 1) + [Axial(q, hi)]
  {
  }

  lemma ContainsBounds(r: int, h: Axial)
    ensures Contains(r, h) <==> -r <= h.q <= r && RMin(r, h.q) <= h.r <= RMax(r, h.q)
  {
  }

  predicate Precedes(a: Axial, b: Axial) {
    a.q < b.q || (a.q == b.q && a.r < b.r)
  }

  ghost predicate Increasing(s: seq<Axial>) {
    forall i, j :: 0 <= i < j < |s| ==> Precedes(s[i], s[j])
  }

  lemma DiskFromSplit(r: int, q: int, h: Axial)
    requires q <= r
    ensures h in DiskFrom(r, q) <==> h in Column(q, RMin(r, q), RMax(r, q)) || h in DiskFrom(r, q + 1)
  {
  }

  lemma {:induction false} DiskFromMembers(r: int, q: int, h: Axial)
    requires -r <= q
    ensures h in DiskFrom(r, q) <==> q <= h.q && Contains(r, h)
    decreases r - q
  {
    if q <= r {
      DiskFromMembers(r, q + 1, h);
      ColumnMembers(q, RMin(r, q), RMax(r, q), h);
      DiskFromSplit(r, q, h);
      ContainsBounds(r, h);
    } else {
      ContainsBounds(r, h);
    }
  }

  lemma {:induction false} DiskFromIncreasing(r: int, q: int)
    requires -r <= q
    ensures Increasing(DiskFrom(r, q))
    decreases r - q
  {
    if q <= r {
      DiskFromIncreasing(r, q + 1);
      forall h | h in DiskFrom(r, q + 1) ensures q < h.q {
        DiskFromMembers(r, q + 1, h);
      }
      var c := Column(q, RMin(r, q), RMax(r, q));
      var s := DiskFrom(r, q);
      forall i, j | 0 <= i < j < |s| ensures Precedes(s[i], s[j]) {
        if j < |c| {
        } else if i < |c| {
          assert s[j] in DiskFrom(r, q + 1);
        } else {
          assert s[i] == DiskFrom(r, q + 1)[i - |c|] && s[j] == DiskFrom(r, q + 1)[j - |c|];
        }
      }
    }
  }

  /** The columns right of the centre shrink by one hex each. */
  lemma {:induction false} RightColumnsCount(r: int, q: int)
    requires 0 <= q <= r + 1
    ensures 2 * |DiskFrom(r, q)| == (r - q + 1) * (3 * r + 2 - q)
    decreases r - q
  {
    if q <= r {
      RightColumnsCount(r, q + 1);
      assert |Column(q, RMin(r, q), RMax(r, q))| == 2 * r + 1 - q;
      RightStep(r, q);
    }
  }

  lemma RightStep(r: int, q: int)
    ensures (r - q) * (3 * r + 1 - q) + 2 * (2 * r + 1 - q) == (r - q + 1) * (3 * r + 2 - q)
  {
  }

  /** k columns left of the centre add k(2r+1) - k(k+1)/2 hexes. */
  lemma {:induction false} LeftColumnsCount(r: int, k: int)
    requires 0 <= k <= r
    ensures 2 * |DiskFrom(r, -k)| == 2 * |DiskFrom(r, 0)| + k * (4 * r + 1 - k)
    decreases k
  {
    if k > 0 {
      LeftColumnsCount(r, k - 1);
      assert |Column(-k, RMin(r, -k), RMax(r, -k))| == 2 * r + 1 - k;
      assert |DiskFrom(r, -k)| == 2 * r + 1 - k + |DiskFrom(r, -k + 1)|;
      LeftStep(r, k);
    }
  }

  lemma LeftStep(r: int, k: int)
    ensures k * (4 * r + 1 - k) == (k - 1) * (4 * r + 1 - (k - 1)) + 2 * (2 * r + 1 - k)
  {
  }

  lemma DiskCount(r: int)
    ensures |DiskSeq(r)| == Capacity(r)
  {
    if r >= 0 {
      RightColumnsCount(r, 0);
      LeftColumnsCount(r, r);
      assert r * (4 * r + 1 - r) == r * (3 * r + 1);
      WholeCount(r);
    }
  }

  lemma WholeCount(r: int)
    ensures (r + 1) * (3 * r + 2) + r * (3 * r + 1) == 2 * (1 + 3 * r * (r + 1))
  {
    assert (r + 1) * (3 * r + 2) == 3 * r * r + 5 * r + 2;
    assert r * (3 * r + 1) == 3 * r * r + r;
  }

  lemma DiskMember(r: int, h: Axial)
    ensures h in DiskSeq(r) <==> Contains(r, h)
  {
    if r >= 0 {
      ContainsBounds(r, h);
      DiskFromMembers(r, -r, h);
    }
  }

  /** Disk lists exactly the contained hexes, in strict (q, r) order, so none
      twice, and as many as Capacity says. */
  lemma DiskIsExact(r: int)
    ensures forall h :: h in DiskSeq(r) <==> Contains(r, h)
    ensures Increasing(DiskSeq(r)) && Distinct(DiskSeq(r))
    ensures |DiskSeq(r)| == Capacity(r)
  {
    DiskCount(r);
    forall h ensures h in DiskSeq(r) <==> Contains(r, h) {
      DiskMember(r, h);
    }
    if r >= 0 {
      DiskFromIncreasing(r, -r);
    }
  }

  /** Those three facts leave no other list. */
  lemma {:induction false} IncreasingIsUnique(a: seq<Axial>, b: seq<Axial>)
    requires Increasing(a) && Increasing(b)
    requires forall h :: h in a <==> h in b
    ensures a == b
    decreases |a|
  {
    assert a != [] ==> a[0] in b;
    assert b != [] ==> b[0] in a;
    if a != [] {
      assert a[0] == b[0];
      forall h ensures h in a[1..] <==> h in b[1..] {
        assert h in a <==> h == a[0] || h in a[1..];
        assert h in b <==> h == b[0] || h in b[1..];
        assert a[0] !in a[1..] && b[0] !in b[1..];
      }
      IncreasingIsUnique(a[1..], b[1..]);
    }
  }

  // ----- balls -----

  /** The hexes within `d` of `c`. */
  function Ball(c: Axial, d: int): (b: set<Axial>) {
    Elems(Shifted(DiskSeq(d), c))
  }

  function Shifted(s: seq<Axial>, c: Axial): (t: seq<Axial>)
    ensures |t| == |s|
    ensures forall i :: 0 <= i < |s| ==> t[i] == s[i].Plus(c)
  {
    seq(|s|, i requires 0 <= i < |s| => s[i].Plus(c))
  }

  lemma ShiftedMembers(s: seq<Axial>, c: Axial, h: Axial)
    ensures h in Shifted(s, c) <==> Axial(h.q - c.q, h.r - c.r) in s
  {
    var o := Axial(h.q - c.q, h.r - c.r);
    if o in s {
      var i :| 0 <= i < |s| && s[i] == o;
      assert Shifted(s, c)[i] == h;
    }
    if h in Shifted(s, c) {
      var i :| 0 <= i < |s| && Shifted(s, c)[i] == h;
      assert s[i] == o;
    }
  }

  lemma WithinBounds(a: Axial, b: Axial, d: int)
    ensures a.Distance(b) <= d <==> -d <= a.q - b.q <= d && -d <= a.r - b.r <= d && -d <= a.S() - b.S() <= d
  {
  }

  lemma BallMembers(c: Axial, d: int, h: Axial)
    ensures h in Ball(c, d) <==> h.Distance(c) <= d
  {
    ShiftedMembers(DiskSeq(d), c, h);
    WithinBounds(h, c, d);
    ContainsBounds(d, Axial(h.q - c.q, h.r - c.r));
    DiskMember(d, Axial(h.q - c.q, h.r - c.r));
  }

  /** Every ball of radius d holds Capacity(d) hexes, wherever its centre. */
  lemma BallCount(c: Axial, d: int)
    ensures |Ball(c, d)| == Capacity(d)
  {
    DiskIsExact(d);
    var s := DiskSeq(d);
    var t := Shifted(s, c);
    forall i, j | 0 <= i < j < |t| ensures t[i] != t[j] {
      assert s[i] != s[j];
    }
    DistinctCount(t);
  }
}
