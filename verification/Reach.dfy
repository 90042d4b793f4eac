/**
 What the dice can come to, exactly. Each phase of the generators gets a range
 stated without its dice; it holds of every tape, and every value in it is what
 some tape leads to, with the draws of the later phases still free.
 */
module Reach {
  import opened Arithmetic
  import opened Atmosphere
  import opened Bodies
  import opened Prng

  // ----- rolls and dice -----

  lemma RollTape(low: int, high: int, v: int, rest: Tape) returns (t: Tape)
    requires low <= v <= high
    ensures RollOn(t, low, high) == (v, rest)
  {
    t := [v - low] + rest;
    RollReaches(low, high, v, rest);
  }

  lemma {:induction false} DiceTape(n: nat, sides: int, v: int, rest: Tape) returns (t: Tape)
    requires sides >= 1 && n <= v <= n * sides
    ensures DiceOn(t, n, sides) == (v, rest)
    decreases n
  {
    if n == 0 {
      t := rest;
    } else {
      var first := if v - (n - 1) < sides then v - (n - 1) else sides;
      assert n * sides == (n - 1) * sides + sides;
      assert n - 1 <= (n - 1) * sides by { ProductMonotone(1, sides, n - 1); }
      var tail := DiceTape(n - 1, sides, v - first, rest);
      t := RollTape(1, sides, first, tail);
    }
  }

  // ----- walks -----

  /** One step of a walk. */
  lemma StepTape(v: int, die: int, n: int, step: int, rest: Tape) returns (t: Tape)
    requires die >= 1 && n >= 1 && (1 <= step <= die || -die <= step <= -1)
    ensures WobbleOn(t, v, die, n) == WobbleOn(rest, v + step, die, n - 1)
  {
    hide RollOn;
    var tail := RollTape(1, 100, if step > 0 then 100 else 1, rest);
    t := RollTape(1, die, if step > 0 then step else -step, tail);
  }

  /** The first of n steps on a way of `diff`, leaving one that n - 1 can go. */
  function FirstStep(diff: int, die: int): (step: int) {
    if diff > die then die
    else if diff > 1 then diff - 1
    else if diff == 1 then 2
    else if diff == 0 then 1
    else if diff == -1 then -2
    else if diff >= -die then diff + 1
    else -die
  }

  lemma {:induction false} WobbleTape(v: int, die: int, n: int, w: int, rest: Tape) returns (t: Tape)
    requires die >= 2 && n >= 1 && v - n * die <= w <= v + n * die && (n == 1 ==> w != v)
    ensures WobbleOn(t, v, die, n) == (w, rest)
    decreases n
  {
    if n == 1 {
      t := StepTape(v, die, 1, w - v, rest);
    } else {
      var step := FirstStep(w - v, die);
      assert n * die == (n - 1) * die + die;
      assert die <= (n - 1) * die by { ProductMonotone(1, n - 1, die); }
      var tail := WobbleTape(v + step, die, n - 1, w, rest);
      t := StepTape(v, die, n, step, tail);
    }
  }

  // ----- diameter -----

  /** A quarter of the start, but at least 2. */
  function Quarter(start: int): (q: int) {
    if start >= 8 then start / 4 else 2
  }

  predicate DiameterCan(start: int, v: int) {
    3 <= v && start - 4 * Quarter(start) <= v <= start + 4 * Quarter(start)
  }

  lemma DiameterRange(t: Tape, start: int)
    requires start >= 0
    ensures DiameterCan(start, DiameterOn(t, start).0)
  {
    hide WobbleOn;
    WobbleRange(t, start, DieFor(start), 4);
  }

  lemma DiameterTape(start: int, v: int, rest: Tape) returns (t: Tape)
    requires start >= 0 && DiameterCan(start, v)
    ensures DiameterOn(t, start) == (v, rest)
  {
    hide WobbleOn;
    t := WobbleTape(start, DieFor(start), 4, v, rest);
  }

  // ----- density -----

  predicate DensityCan(giant: bool, v: int) {
    if giant then 60 <= v <= 170 else 370 <= v <= 570
  }

  lemma TwoRolls(sides: int, v: int) returns (a: int, b: int)
    requires 2 <= v <= 2 * sides
    ensures 1 <= a <= sides && 1 <= b <= sides && a + b == v
  {
    a := if v - 1 < sides then v - 1 else sides;
    b := v - a;
  }

  lemma DensityTape(giant: bool, v: int, rest: Tape) returns (t: Tape)
    requires DensityCan(giant, v)
    ensures DensityOn(t, giant) == (v, rest)
  {
    hide RollOn;
    var sides := if giant then 56 else 101;
    var a, b := TwoRolls(sides, v - if giant then 58 else 368);
    t := RollTape(1, sides, b, rest);
    t := RollTape(1, sides, a, t);
  }

  // ----- temperature and pressure -----

  lemma SpreadRange(t: Tape, start: int)
    ensures start - 9 * DieFor(start) <= SpreadOn(t, start).0 <= start + 9 * DieFor(start)
  {
    hide WobbleOn;
    var (a, t1) := RollOn(t, 1, 3);
    var (b, t2) := RollOn(t1, 1, 3);
    var (c, t3) := RollOn(t2, 1, 3);
    WobbleRange(t3, start, DieFor(start), a + b + c);
    ProductMonotone(a + b + c, 9, DieFor(start));
  }

  lemma SpreadReach(start: int, v: int, rest: Tape) returns (t: Tape)
    requires start - 9 * DieFor(start) <= v <= start + 9 * DieFor(start)
    ensures SpreadOn(t, start) == (v, rest)
  {
    hide WobbleOn, RollOn;
    t := WobbleTape(start, DieFor(start), 9, v, rest);
    t := RollTape(1, 3, 3, t);
    t := RollTape(1, 3, 3, t);
    t := RollTape(1, 3, 3, t);
  }

  /** Nine quarters are more than the start. */
  lemma QuarterIsDie(start: int)
    requires start >= 0
    ensures DieFor(start) == Quarter(start) && start - 9 * DieFor(start) <= 0 && start + 9 * DieFor(start) >= 18
  {
  }

  /** Before ordering: 3 to 7 for gas giants; else from 1, or 12 where warmed, to
      30 or nine quarters above the start. */
  predicate TemperatureCan(start: int, giant: bool, warm: bool, v: int) {
    if giant then 3 <= v <= 7
    else (if warm then 12 else 1) <= v <= 30 && v <= start + 9 * Quarter(start)
  }

  lemma TemperatureRange(t: Tape, start: int, giant: bool, rockyDie: int, warm: bool)
    requires 1 <= rockyDie <= 3 && start >= 0 && !(giant && warm)
    ensures TemperatureCan(start, giant, warm, TemperatureOn(t, start, giant, rockyDie, warm).0)
  {
    hide SpreadOn, RaiseOn, LowerOn;
    SpreadRange(t, start);
    QuarterIsDie(start);
  }

  lemma TemperatureTape(start: int, giant: bool, rockyDie: int, warm: bool, v: int, rest: Tape) returns (t: Tape)
    requires 1 <= rockyDie <= 3 && start >= 0 && !(giant && warm) && TemperatureCan(start, giant, warm, v)
    ensures TemperatureOn(t, start, giant, rockyDie, warm) == (v, rest)
  {
    hide SpreadOn, RaiseOn, LowerOn;
    QuarterIsDie(start);
    t := SpreadReach(start, v, rest);
  }

  /** 0 to 12 for rocky planets; from 11 for gas giants, to 29 or nine quarters
      above the start. */
  predicate PressureCan(start: int, giant: bool, v: int) {
    if giant then 11 <= v <= 29 && v <= start + 9 * Quarter(start) else 0 <= v <= 12
  }

  lemma PressureRange(t: Tape, start: int, giant: bool)
    requires start >= 0
    ensures PressureCan(start, giant, PressureOn(t, start, giant).0)
  {
    hide SpreadOn, RaiseOn, LowerOn;
    SpreadRange(t, start);
    QuarterIsDie(start);
  }

  lemma PressureTape(start: int, giant: bool, v: int, rest: Tape) returns (t: Tape)
    requires start >= 0 && PressureCan(start, giant, v)
    ensures PressureOn(t, start, giant) == (v, rest)
  {
    hide SpreadOn, RaiseOn, LowerOn;
    QuarterIsDie(start);
    t := SpreadReach(start, v, rest);
  }

  // ----- gases -----

  /** The first gas of the window: the class over 2.25, within 1 to 9. */
  predicate Lowest(tc: int, g: Gas) {
    1 <= g <= 9 && (g > 1 ==> 225 * g <= 100 * tc) && (g < 9 ==> 100 * tc < 225 * (g + 1))
  }

  lemma FirstGasIsLowest(tc: int, g: Gas)
    ensures Lowest(tc, g) <==> g == FirstGas(tc)
  {
  }

  /** Helium comes in 1 to 20, oxygen in 1 to 50, others in 1 to 100. */
  predicate QuantityCan(x: GasShare) {
    1 <= x.percent <= if x.gas == HE then 20 else if x.gas == O2 then 50 else 100
  }

  /** Ascending gases of the window, helium only up to class 5. */
  ghost predicate PickCan(s: seq<GasShare>, low: Gas, high: Gas, tc: int) {
    && (forall i :: 0 <= i < |s| ==> low <= s[i].gas <= high && QuantityCan(s[i]) && (s[i].gas == HE ==> tc <= 5))
    && (forall i, j :: 0 <= i < j < |s| ==> s[i].gas < s[j].gas)
  }

  /** One to four picked gases as percentages rounded down, the first of them
      with what is left of the hundred. */
  ghost predicate MixCan(mix: seq<GasShare>, tc: int) {
    exists s, low ::
      && 1 <= |s| <= 4 && Lowest(tc, low) && PickCan(s, low, low + 4, tc)
      && PercentsOf(mix, s)
  }

  ghost predicate PercentsOf(mix: seq<GasShare>, s: seq<GasShare>) {
    && |mix| == |s| && Total(mix) == 100
    && (forall i :: 0 <= i < |s| ==> mix[i].gas == s[i].gas)
    && (forall i :: 1 <= i < |s| ==> IsPercent(mix[i].percent, s[i].percent, Total(s)))
  }

  /** p percent of the total, rounded down, is q. */
  predicate IsPercent(p: int, q: int, total: int) {
    p * total <= 100 * q < p * total + total
  }

  lemma ShareIsPercent(q: int, total: int, p: int)
    requires total > 0
    ensures p == Share(q, total) <==> IsPercent(p, q, total)
  {
    QuotientIff(100 * q, total, p);
  }

  lemma {:induction false} TotalFront(a: seq<GasShare>, b: seq<GasShare>)
    requires |a| == |b| > 0 && forall i :: 1 <= i < |a| ==> a[i].percent == b[i].percent
    ensures Total(a) - Total(b) == a[0].percent - b[0].percent
  {
    var n := |a| - 1;
    if n > 0 {
      TotalFront(a[..n], b[..n]);
    } else {
      assert a[..0] == [] && b[..0] == [];
    }
  }

  /** These percentages are the normalised quantities and nothing else. */
  lemma NormalizedIff(mix: seq<GasShare>, s: seq<GasShare>)
    requires s != [] && Positive(s)
    ensures Total(s) > 0 && (mix == Normalized(s) <==> PercentsOf(mix, s))
  {
    hide Total;
    NormalizedIsWhole(s);
    var norm := Normalized(s);
    forall i | 1 <= i < |s| ensures norm[i].percent == Share(s[i].percent, Total(s)) {
      assert norm[i] == Shares(s, Total(s))[i];
    }
    forall i, p | 1 <= i < |s| ensures p == Share(s[i].percent, Total(s)) <==> IsPercent(p, s[i].percent, Total(s)) {
      ShareIsPercent(s[i].percent, Total(s), p);
    }
    if PercentsOf(mix, s) {
      TotalFront(mix, norm);
      assert forall i :: 0 <= i < |s| ==> mix[i] == norm[i];
    }
  }

  lemma TryCan(t: Tape, gas: Gas, tc: int, heatFirst: bool)
    ensures var qty := TryGasOn(t, gas, tc, heatFirst).0;
            qty == 0 || (QuantityCan(GasShare(gas, qty)) && (gas == HE ==> tc <= 5))
  {
  }

  lemma PickGrows(s: seq<GasShare>, low: Gas, gas: Gas, tc: int, qty: int)
    requires low <= gas && PickCan(s, low, gas - 1, tc)
    requires qty == 0 || (QuantityCan(GasShare(gas, qty)) && (gas == HE ==> tc <= 5))
    ensures PickCan(if qty > 0 then s + [GasShare(gas, qty)] else s, low, gas, tc)
  {
  }

  lemma {:induction false} PassRange(t: Tape, gas: Gas, last: Gas, picked: seq<GasShare>, wanted: int, tc: int,
                                     heatFirst: bool, low: Gas)
    requires low <= gas <= last + 1 && PickCan(picked, low, gas - 1, tc)
    ensures PickCan(PassOn(t, gas, last, picked, wanted, tc, heatFirst).0, low, last, tc)
    decreases last - gas
  {
    hide TryGasOn, QuantityCan;
    if gas <= last && |picked| != wanted {
      var (qty, t1) := TryGasOn(t, gas, tc, heatFirst);
      TryCan(t, gas, tc, heatFirst);
      PickGrows(picked, low, gas, tc, qty);
      PassRange(t1, gas + 1, last, if qty > 0 then picked + [GasShare(gas, qty)] else picked, wanted, tc, heatFirst, low);
    }
  }

  lemma {:induction false} PickRange(t: Tape, first: Gas, wanted: int, tc: int, heatFirst: bool)
    requires wanted >= 1
    ensures PickCan(PickOn(t, first, wanted, tc, heatFirst).0, first, first + 4, tc)
    decreases |t|
  {
    hide PassOn, PickCan;
    var (picked, t1) := PassOn(t, first, first + 4, [], wanted, tc, heatFirst);
    assert PickCan([], first, first - 1, tc) by { NoPick(first, tc); }
    PassRange(t, first, first + 4, [], wanted, tc, heatFirst, first);
    if picked == [] {
      PickRange(t1, first, wanted, tc, heatFirst);
    }
  }

  lemma NoPick(first: Gas, tc: int)
    ensures PickCan([], first, first - 1, tc)
  {
  }

  lemma TakeTape(gas: Gas, qty: int, tc: int, heatFirst: bool, rest: Tape) returns (t: Tape)
    requires QuantityCan(GasShare(gas, qty)) && (gas == HE ==> tc <= 5)
    ensures TryGasOn(t, gas, tc, heatFirst) == (qty, rest)
  {
    hide RollOn;
    t := RollTape(1, if gas == HE then 20 else if gas == O2 then 50 else 100, qty, rest);
    t := RollTape(1, 3, 1, t);
  }

  lemma SkipTape(gas: Gas, tc: int, heatFirst: bool, rest: Tape) returns (t: Tape)
    ensures TryGasOn(t, gas, tc, heatFirst) == (0, rest)
  {
    hide RollOn;
    if gas == HE && heatFirst && tc > 5 {
      t := rest;
    } else {
      t := RollTape(1, 3, 3, rest);
    }
  }

  /** Any selection of up to `wanted` gases is the outcome of some pass. */
  lemma {:induction false} PassTape(gas: Gas, last: Gas, picked: seq<GasShare>, more: seq<GasShare>, wanted: int, tc: int,
                                    heatFirst: bool, rest: Tape) returns (t: Tape)
    requires gas <= last + 1 && PickCan(more, gas, last, tc) && |picked| + |more| <= wanted
    ensures PassOn(t, gas, last, picked, wanted, tc, heatFirst) == (picked + more, rest)
    decreases last - gas
  {
    hide TryGasOn, QuantityCan, PassOn;
    if more != [] {
      PickNeedsRoom(more, gas, last, tc);
    }
    if gas > last || |picked| == wanted {
      t := rest;
      PassStops(t, gas, last, picked, wanted, tc, heatFirst);
      assert picked + more == picked;
    } else if more != [] && more[0].gas == gas {
      var x := more[0];
      var tail := PassTape(gas + 1, last, picked + [x], more[1..], wanted, tc, heatFirst, rest);
      t := TakeTape(gas, x.percent, tc, heatFirst, tail);
      assert x.percent > 0 by { QuantityPositive(x); }
      PassGoes(t, gas, last, picked, wanted, tc, heatFirst);
      assert x == GasShare(gas, x.percent);
      assert picked + [x] + more[1..] == picked + more;
    } else {
      var tail := PassTape(gas + 1, last, picked, more, wanted, tc, heatFirst, rest);
      t := SkipTape(gas, tc, heatFirst, tail);
      PassGoes(t, gas, last, picked, wanted, tc, heatFirst);
    }
  }

  lemma PickNeedsRoom(s: seq<GasShare>, low: Gas, high: Gas, tc: int)
    requires s != [] && PickCan(s, low, high, tc)
    ensures low <= high
  {
    assert low <= s[0].gas <= high;
  }

  lemma QuantityPositive(x: GasShare)
    requires QuantityCan(x)
    ensures x.percent > 0
  {
  }

  lemma PassStops(t: Tape, gas: Gas, last: Gas, picked: seq<GasShare>, wanted: int, tc: int, heatFirst: bool)
    requires gas > last || |picked| == wanted
    ensures PassOn(t, gas, last, picked, wanted, tc, heatFirst) == (picked, t)
  {
  }

  lemma PassGoes(t: Tape, gas: Gas, last: Gas, picked: seq<GasShare>, wanted: int, tc: int, heatFirst: bool)
    requires gas <= last && |picked| != wanted
    ensures var (qty, t1) := TryGasOn(t, gas, tc, heatFirst);
            PassOn(t, gas, last, picked, wanted, tc, heatFirst)
            == PassOn(t1, gas + 1, last, if qty > 0 then picked + [GasShare(gas, qty)] else picked, wanted, tc, heatFirst)
  {
    hide TryGasOn;
  }

  lemma PickTape(s: seq<GasShare>, first: Gas, wanted: int, tc: int, heatFirst: bool, rest: Tape) returns (t: Tape)
    requires 1 <= |s| <= wanted && PickCan(s, first, first + 4, tc)
    ensures PickOn(t, first, wanted, tc, heatFirst) == (s, rest)
  {
    hide PassOn;
    t := PassTape(first, first + 4, [], s, wanted, tc, heatFirst, rest);
    assert [] + s == s;
  }

  lemma PickPositive(s: seq<GasShare>, low: Gas, high: Gas, tc: int)
    requires PickCan(s, low, high, tc)
    ensures Positive(s)
  {
  }

  /** Normalising what a pick can be gives what a mix can be. */
  lemma MixRange(s: seq<GasShare>, tc: int)
    requires 1 <= |s| <= 4 && PickCan(s, FirstGas(tc), FirstGas(tc) + 4, tc)
    ensures Total(s) > 0 && MixCan(Normalized(s), tc)
  {
    hide PickCan, Normalized, PercentsOf, Total;
    FirstGasIsLowest(tc, FirstGas(tc));
    PickPositive(s, FirstGas(tc), FirstGas(tc) + 4, tc);
    NormalizedIsWhole(s);
    NormalizedIff(Normalized(s), s);
  }

  lemma MixPick(mix: seq<GasShare>, tc: int) returns (s: seq<GasShare>)
    requires MixCan(mix, tc)
    ensures 1 <= |s| <= 4 && PickCan(s, FirstGas(tc), FirstGas(tc) + 4, tc) && Total(s) > 0 && mix == Normalized(s)
  {
    hide PickCan, Normalized, PercentsOf, Total;
    var low;
    s, low :| 1 <= |s| <= 4 && Lowest(tc, low) && PickCan(s, low, low + 4, tc) && PercentsOf(mix, s);
    FirstGasIsLowest(tc, low);
    PickPositive(s, low, low + 4, tc);
    NormalizedIff(mix, s);
  }
}
