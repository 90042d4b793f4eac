/**
 Gas mixes. Clusters keep a mix as a map filled and normalised in place,
 templates as a slice; both pick from a window of five gases by rejection.
 */
module Atmosphere {
  import opened Arithmetic
  import opened Prng

  type Gas = int

  const HE: Gas := 3
  const NH3: Gas := 4
  const N2: Gas := 5
  const CO2: Gas := 6
  const O2: Gas := 7

  datatype GasShare = GasShare(gas: Gas, percent: int)

  function Total(s: seq<GasShare>): (sum: int) {
    if s == [] then 0 else Total(s[..|s| - 1]) + s[|s| - 1].percent
  }

  ghost predicate DistinctGases(s: seq<GasShare>) {
    forall i, j :: 0 <= i < j < |s| ==> s[i].gas != s[j].gas
  }

  /** What every atmosphere of the generators satisfies. */
  ghost predicate IsMix(s: seq<GasShare>) {
    && 1 <= |s| <= 4 && DistinctGases(s) && Total(s) == 100
    && forall i :: 0 <= i < |s| ==> 1 <= s[i].gas <= 13 && s[i].percent >= 0
  }

  // ----- picking -----

  /** The first of the five gases a temperature class draws from. */
  function FirstGas(tc: int): (g: Gas)
    ensures 1 <= g <= 9
  {
    var n := 100 * tc / 225;
    if n < 1 then 1 else if n > 9 then 9 else n
  }

  /** Ascending gases of [low, high] in roll quantities, helium only when cool. */
  ghost predicate Picks(s: seq<GasShare>, low: Gas, high: Gas, tc: int) {
    && (forall i :: 0 <= i < |s| ==> low <= s[i].gas <= high && 1 <= s[i].percent <= 100)
    && (forall i, j :: 0 <= i < j < |s| ==> s[i].gas < s[j].gas)
    && (forall i :: 0 <= i < |s| && s[i].gas == HE ==> tc <= 5)
  }

  /** Roll one gas: None when it is skipped. `heatFirst` says whether the heat
      test on helium comes before the skip roll (clusters) or after it
      (templates). */
  function TryGasOn(t: Tape, gas: Gas, tc: int, heatFirst: bool): (r: (int, Tape))
    ensures 0 <= r.0 <= 100
    ensures gas == HE && r.0 > 0 ==> tc <= 5
    ensures |r.1| <= |t|
    ensures gas != HE ==> r.0 > 0 || |r.1| < |t|
  {
    if gas == HE && heatFirst && tc > 5 then (0, t)
    else
      var (skip, t1) := RollOn(t, 1, 3);
      if skip >= (if gas == HE then 2 else 3) || (gas == HE && tc > 5) then (0, t1)
      else RollOn(t1, 1, if gas == HE then 20 else if gas == O2 then 50 else 100)
  }

  /** A gas is passed over on one draw in three, helium on two. */
  lemma TryGasByDraw(x: nat, rest: Tape, gas: Gas, tc: int, heatFirst: bool)
    requires gas == HE ==> tc <= 5
    ensures TryGasOn([x] + rest, gas, tc, heatFirst).0 == 0 <==> (if gas == HE then x % 3 != 0 else x % 3 == 2)
  {
    RollByDraw(x, rest, 1, 3);
  }

  /** One pass over the window from `gas` to `last`. */
  function PassOn(t: Tape, gas: Gas, last: Gas, picked: seq<GasShare>, wanted: int, tc: int, heatFirst: bool)
    : (r: (seq<GasShare>, Tape))
    ensures |picked| <= |r.0| && (|picked| <= wanted ==> |r.0| <= wanted)
    ensures |r.1| <= |t|
    ensures picked == [] && wanted >= 1 && gas < last && r.0 == [] ==> |r.1| < |t|
    decreases last - gas
  {
    if gas > last || |picked| == wanted then (picked, t)
    else
      var (qty, t1) := TryGasOn(t, gas, tc, heatFirst);
      var next := if qty > 0 then picked + [GasShare(gas, qty)] else picked;
      var r := PassOn(t1, gas + 1, last, next, wanted, tc, heatFirst);
      assert gas + 1 == last && gas == HE ==> last != HE;
      r
  }

  lemma PicksGrow(s: seq<GasShare>, low: Gas, gas: Gas, tc: int, qty: int)
    requires low <= gas && Picks(s, low, gas - 1, tc)
    requires 0 <= qty <= 100 && (gas == HE && qty > 0 ==> tc <= 5)
    ensures Picks(if qty > 0 then s + [GasShare(gas, qty)] else s, low, gas, tc)
  {
  }

  lemma PicksWiden(s: seq<GasShare>, low: Gas, high: Gas, higher: Gas, tc: int)
    requires high <= higher && Picks(s, low, high, tc)
    ensures Picks(s, low, higher, tc)
  {
  }

  lemma {:induction false} PassPicks(t: Tape, gas: Gas, last: Gas, picked: seq<GasShare>, wanted: int, tc: int,
                                     heatFirst: bool, low: Gas)
    requires low <= gas && Picks(picked, low, gas - 1, tc)
    ensures Picks(PassOn(t, gas, last, picked, wanted, tc, heatFirst).0, low, if gas > last then gas - 1 else last, tc)
    decreases last - gas
  {
    if gas > last {
    } else if |picked| == wanted {
      PicksWiden(picked, low, gas - 1, last, tc);
    } else {
      var (qty, t1) := TryGasOn(t, gas, tc, heatFirst);
      PicksGrow(picked, low, gas, tc, qty);
      PassPicks(t1, gas + 1, last, if qty > 0 then picked + [GasShare(gas, qty)] else picked, wanted, tc, heatFirst, low);
    }
  }

  /** Passes until some gas is found; every pass that finds none has drawn. */
  function PickOn(t: Tape, first: Gas, wanted: int, tc: int, heatFirst: bool): (r: (seq<GasShare>, Tape))
    requires wanted >= 1
    ensures 1 <= |r.0| <= wanted
    ensures |r.1| <= |t|
    decreases |t|
  {
    var (picked, t1) := PassOn(t, first, first + 4, [], wanted, tc, heatFirst);
    if picked != [] then (picked, t1) else PickOn(t1, first, wanted, tc, heatFirst)
  }

  lemma {:induction false} PickPicks(t: Tape, first: Gas, wanted: int, tc: int, heatFirst: bool)
    requires wanted >= 1
    ensures Picks(PickOn(t, first, wanted, tc, heatFirst).0, first, first + 4, tc)
    decreases |t|
  {
    var (picked, t1) := PassOn(t, first, first + 4, [], wanted, tc, heatFirst);
    PassPicks(t, first, first + 4, [], wanted, tc, heatFirst, first);
    if picked == [] {
      PickPicks(t1, first, wanted, tc, heatFirst);
    }
  }

  /** On calm draws a pass never comes back empty: an accepting roll exists. */
  lemma CalmPassFinds(first: Gas, wanted: int, tc: int, heatFirst: bool)
    requires wanted >= 1
    ensures PassOn([], first, first + 4, [], wanted, tc, heatFirst).0 != []
  {
  }

  // ----- normalising -----

  function Share(quantity: int, total: int): (pct: int)
    requires total > 0
  {
    100 * quantity / total
  }

  /** Each quantity as a percentage of the total, rounded down. */
  function Shares(s: seq<GasShare>, total: int): (r: seq<GasShare>)
    requires total > 0
    ensures |r| == |s|
    ensures forall i :: 0 <= i < |s| ==> r[i] == s[i].(percent := Share(s[i].percent, total))
  {
    seq(|s|, i requires 0 <= i < |s| => s[i].(percent := Share(s[i].percent, total)))
  }

  /** The percentages, with what rounding left over given to the first gas. */
  function Normalized(s: seq<GasShare>): (r: seq<GasShare>)
    requires s != [] && Total(s) > 0
    ensures |r| == |s|
    ensures forall i :: 0 <= i < |s| ==> r[i].gas == s[i].gas
  {
    ToppedUp(Shares(s, Total(s)))
  }

  function ToppedUp(pct: seq<GasShare>): (r: seq<GasShare>)
    requires pct != []
    ensures |r| == |pct|
    ensures forall i :: 0 <= i < |pct| ==> r[i].gas == pct[i].gas
  {
    pct[0 := pct[0].(percent := pct[0].percent + 100 - Total(pct))]
  }

  lemma ToppedUpIsWhole(pct: seq<GasShare>)
    requires pct != [] && Total(pct) <= 100
    requires forall i :: 0 <= i < |pct| ==> pct[i].percent >= 0
    ensures Total(ToppedUp(pct)) == 100
    ensures forall i :: 0 <= i < |pct| ==> ToppedUp(pct)[i].percent >= 0
  {
    hide Total;
    TotalUpdate(pct, 0, pct[0].percent + 100 - Total(pct));
  }

  lemma ShareBounds(q: int, total: int)
    requires total > 0 && q >= 0
    ensures 0 <= Share(q, total)
    ensures 100 * q - total < Share(q, total) * total <= 100 * q
  {
    var p := Share(q, total);
    assert 100 * q == total * p + (100 * q) % total;
  }

  ghost predicate Positive(s: seq<GasShare>) {
    forall i :: 0 <= i < |s| ==> s[i].percent >= 1
  }

  lemma {:induction false} TotalPositive(s: seq<GasShare>)
    requires Positive(s)
    ensures Total(s) >= |s|
  {
    if s != [] {
      TotalPositive(s[..|s| - 1]);
    }
  }

  lemma Distribute(a: int, b: int, c: int)
    ensures (a + b) * c == a * c + b * c
  {
  }

  lemma {:induction false} SharesLoseLittle(s: seq<GasShare>, total: int)
    requires total > 0 && Positive(s)
    ensures Total(Shares(s, total)) * total <= 100 * Total(s)
    ensures s != [] ==> Total(Shares(s, total)) * total > 100 * Total(s) - |s| * total
    ensures s == [] ==> Total(Shares(s, total)) == 0
  {
    if s != [] {
      var n := |s| - 1;
      var front, pct := s[..n], Shares(s, total);
      SharesLoseLittle(front, total);
      assert pct[..n] == Shares(front, total);
      ShareBounds(s[n].percent, total);
      Distribute(Total(Shares(front, total)), pct[n].percent, total);
      Distribute(n, 1, total);
    }
  }

  lemma {:induction false} TotalUpdate(s: seq<GasShare>, i: nat, p: int)
    requires i < |s|
    ensures Total(s[i := s[i].(percent := p)]) == Total(s) - s[i].percent + p
  {
    var n := |s| - 1;
    var s1 := s[i := s[i].(percent := p)];
    if i == n {
      assert s1[..n] == s[..n];
    } else {
      assert s1[..n] == s[..n][i := s[..n][i].(percent := p)];
      TotalUpdate(s[..n], i, p);
    }
  }

  lemma Between(x: int, total: int, n: int)
    requires total > 0 && 100 * total - n * total < x * total <= 100 * total
    ensures 100 - n < x <= 100
  {
    ProductMonotone(101, x, total);
    ProductMonotone(x, 100 - n, total);
    assert (100 - n) * total == 100 * total - n * total;
  }

  lemma SharesNonnegative(s: seq<GasShare>, total: int)
    requires total > 0 && Positive(s)
    ensures forall i :: 0 <= i < |s| ==> Shares(s, total)[i].percent >= 0
  {
    forall i | 0 <= i < |s| ensures Share(s[i].percent, total) >= 0 {
      ShareBounds(s[i].percent, total);
    }
  }

  lemma LeftoverIsSmall(s: seq<GasShare>)
    requires s != [] && Positive(s)
    ensures Total(s) > 0
    ensures 0 <= 100 - Total(Shares(s, Total(s))) < |s|
  {
    TotalPositive(s);
    SharesLoseLittle(s, Total(s));
    Between(Total(Shares(s, Total(s))), Total(s), |s|);
  }

  /** The leftover is less than the number of gases, nothing goes negative and
      the whole comes to exactly 100. */
  lemma NormalizedIsWhole(s: seq<GasShare>)
    requires s != [] && Positive(s)
    ensures Total(s) > 0
    ensures 0 <= 100 - Total(Shares(s, Total(s))) < |s|
    ensures Total(Normalized(s)) == 100
    ensures forall i :: 0 <= i < |s| ==> Normalized(s)[i].percent >= 0
  {
    LeftoverIsSmall(s);
    SharesNonnegative(s, Total(s));
    ToppedUpIsWhole(Shares(s, Total(s)));
  }

  lemma PicksNormalizeToMix(s: seq<GasShare>, low: Gas, high: Gas, tc: int)
    requires 1 <= |s| <= 4 && Picks(s, low, high, tc) && 1 <= low && high <= 13
    ensures Total(s) > 0 && IsMix(Normalized(s)) && Picks(s, low, high, tc)
    ensures forall i :: 0 <= i < |s| && Normalized(s)[i].gas == HE ==> tc <= 5
  {
    NormalizedIsWhole(s);
  }
}
