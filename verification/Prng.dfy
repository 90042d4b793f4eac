/**
 The random source threaded through every generator stage.

 A generator's remaining output is a `Tape`: the finite list of draws it still
 has to give. After the last one every draw is CALM. A run of the program that
 stops has used finitely many draws, so it is the run on the tape holding
 exactly those draws: a claim for every tape is a claim for every run that
 stops. CALM is a draw every rejection loop of the generators accepts.
 */
module Prng {

  type Tape = seq<nat>

  const CALM: nat := 57

  /** One draw and the tape behind it. */
  function DrawOn(t: Tape): (r: (nat, Tape)) {
    if t == [] then (CALM, []) else (t[0], t[1..])
  }

  /** A uniform roll in [low, high]; the ends may come in either order. */
  function RollOn(t: Tape, low: int, high: int): (r: (int, Tape))
    ensures low <= high ==> low <= r.0 <= high
    ensures high < low ==> high <= r.0 <= low
    ensures |r.1| == if t == [] then 0 else |t| - 1
  {
    var lo, hi := if high < low then high else low, if high < low then low else high;
    var (x, rest) := DrawOn(t);
    (lo + x % (hi - lo + 1), rest)
  }

  /** Every value in range is the outcome of some draw, whatever follows it. */
  lemma RollReaches(low: int, high: int, v: int, rest: Tape)
    requires low <= v <= high
    ensures RollOn([v - low] + rest, low, high) == (v, rest)
  {
    var t: Tape := [v - low] + rest;
    assert t[1..] == rest;
    assert (v - low) % (high - low + 1) == v - low;
  }

  /** A roll is the remainder of its draw. */
  lemma RollByDraw(x: nat, rest: Tape, low: int, high: int)
    requires low <= high
    ensures RollOn([x] + rest, low, high) == (low + x % (high - low + 1), rest)
  {
    assert ([x] + rest)[1..] == rest;
  }

  /** The sum of n dice; none when n is not positive. */
  function DiceOn(t: Tape, n: int, sides: int): (r: (int, Tape))
    requires sides >= 1
    ensures n <= 0 ==> r == (0, t)
    ensures n > 0 ==> n <= r.0 <= n * sides
    ensures |r.1| <= |t|
    decreases n
  {
    if n <= 0 then (0, t)
    else
      var (v, t1) := RollOn(t, 1, sides);
      var (rest, t2) := DiceOn(t1, n - 1, sides);
      assert n == 1 || (n - 1) * sides + sides == n * sides;
      (v + rest, t2)
  }

  function Swapped<T>(s: seq<T>, i: nat, j: nat): (r: seq<T>)
    requires i < |s| && j < |s|
    ensures |r| == |s|
  {
    s[i := s[j]][j := s[i]]
  }

  /** Fisher-Yates from position i down: position i swaps with a drawn j <= i. */
  function ShuffleFrom<T>(t: Tape, s: seq<T>, i: int): (r: (seq<T>, Tape))
    requires i < |s|
    ensures |r.0| == |s|
    decreases i
  {
    if i <= 0 then (s, t)
    else
      var (j, t1) := RollOn(t, 0, i);
      ShuffleFrom(t1, Swapped(s, i, j), i - 1)
  }

  lemma ShuffleStep<T>(t: Tape, s: seq<T>, i: nat)
    requires 0 < i < |s|
    ensures var (j, t1) := RollOn(t, 0, i);
            ShuffleFrom(t, s, i) == ShuffleFrom(t1, Swapped(s, i, j), i - 1)
  {
  }

  method SwapInPlace<T>(a: array<T>, i: nat, j: nat)
    requires i < a.Length && j < a.Length
    modifies a
    ensures a[..] == Swapped(old(a[..]), i, j)
  {
    a[i], a[j] := a[j], a[i];
  }

  function ShuffleOn<T>(t: Tape, s: seq<T>): (r: (seq<T>, Tape))
    ensures |r.0| == |s|
  {
    ShuffleFrom(t, s, |s| - 1)
  }

  lemma {:induction false} ShuffleKeepsFrom<T>(t: Tape, s: seq<T>, i: int)
    requires i < |s|
    ensures multiset(ShuffleFrom(t, s, i).0) == multiset(s)
    decreases i
  {
    if i > 0 {
      var (j, t1) := RollOn(t, 0, i);
      SwapKeeps(s, i, j);
      ShuffleKeepsFrom(t1, Swapped(s, i, j), i - 1);
    }
  }

  lemma SwapKeeps<T>(s: seq<T>, i: nat, j: nat)
    requires i < |s| && j < |s|
    ensures multiset(Swapped(s, i, j)) == multiset(s)
  {
  }

  /** A shuffle permutes, whatever the draws. */
  lemma ShufflePermutes<T>(t: Tape, s: seq<T>)
    ensures multiset(ShuffleOn(t, s).0) == multiset(s)
  {
    ShuffleKeepsFrom(t, s, |s| - 1);
  }

  lemma DrawWanted(j: nat, i: nat, rest: Tape)
    requires j <= i
    ensures RollOn([j] + rest, 0, i) == (j, rest)
  {
    RollReaches(0, i, j, rest);
    assert [j - 0] + rest == [j] + rest;
  }

  /** Positions above i are settled; the rest can still become anything. */
  lemma {:induction false} OrderReachableFrom<T>(s: seq<T>, p: seq<T>, i: int) returns (t: Tape)
    requires -1 <= i < |s| == |p|
    requires multiset(s[..i + 1]) == multiset(p[..i + 1]) && s[i + 1..] == p[i + 1..]
    ensures ShuffleFrom(t, s, i).0 == p
    decreases i
  {
    if i <= 0 {
      t := [];
      SameSingleton(s, p, i);
    } else {
      var j := FindIn(s[..i + 1], p[..i + 1], i);
      SettleOne(s, p, i, j);
      var rest := OrderReachableFrom(Swapped(s, i, j), p, i - 1);
      t := [j] + rest;
      DrawWanted(j, i, rest);
    }
  }

  lemma FindIn<T>(a: seq<T>, b: seq<T>, i: nat) returns (j: nat)
    requires multiset(a) == multiset(b) && i < |b|
    ensures j < |a| && a[j] == b[i]
  {
    assert b[i] in multiset(b);
    assert b[i] in a;
    j :| j < |a| && a[j] == b[i];
  }

  lemma SameSingleton<T>(s: seq<T>, p: seq<T>, i: int)
    requires -1 <= i <= 0 && i < |s| == |p|
    requires multiset(s[..i + 1]) == multiset(p[..i + 1]) && s[i + 1..] == p[i + 1..]
    ensures s == p
  {
    if i == 0 {
      assert s[..1] == [s[0]] && p[..1] == [p[0]];
      assert s[0] in multiset(s[..1]);
      assert s == [s[0]] + s[1..] && p == [p[0]] + p[1..];
    }
  }

  lemma SettleOne<T>(s: seq<T>, p: seq<T>, i: nat, j: nat)
    requires j <= i < |s| == |p| && s[j] == p[i]
    requires multiset(s[..i + 1]) == multiset(p[..i + 1]) && s[i + 1..] == p[i + 1..]
    ensures var s1 := Swapped(s, i, j);
            multiset(s1[..i]) == multiset(p[..i]) && s1[i..] == p[i..]
  {
    var s1 := Swapped(s, i, j);
    assert s1[..i + 1] == Swapped(s[..i + 1], i, j);
    SwapKeeps(s[..i + 1], i, j);
    DropLast(s1[..i + 1], p[..i + 1]);
    assert s1[..i + 1][..i] == s1[..i] && p[..i + 1][..i] == p[..i];
    forall k | i <= k < |s| ensures s1[k] == p[k] {
      if k > i {
        assert s[k] == s[i + 1..][k - i - 1] && p[k] == p[i + 1..][k - i - 1];
      }
    }
  }

  lemma DropLast<T>(a: seq<T>, b: seq<T>)
    requires |a| == |b| > 0 && multiset(a) == multiset(b) && a[|a| - 1] == b[|b| - 1]
    ensures multiset(a[..|a| - 1]) == multiset(b[..|b| - 1])
  {
    var n := |a| - 1;
    assert a == a[..n] + [a[n]] && b == b[..n] + [b[n]];
    assert multiset(a[..n]) == multiset(a) - multiset{a[n]};
  }

  /** Every reordering is the shuffle of some tape, so a claim for every tape
      is a claim for every shuffle. */
  lemma EveryOrderReachable<T>(s: seq<T>, p: seq<T>)
    requires multiset(s) == multiset(p)
    ensures exists t :: ShuffleOn(t, s).0 == p
  {
    assert |multiset(s)| == |s| && |multiset(p)| == |p|;
    var i := |s| - 1;
    assert s[..i + 1] == s && p[..i + 1] == p;
    var t := OrderReachableFrom(s, p, i);
    assert ShuffleOn(t, s).0 == p;
  }

  /** What a seed pair makes a fresh generator produce. */
  type Source = (nat, nat) -> Tape

  /** Two draws seed the child; the parent goes on behind them. */
  function SplitOn(gen: Source, t: Tape): (r: (Tape, Tape)) {
    var (s1, t1) := DrawOn(t);
    var (s2, t2) := DrawOn(t1);
    (gen(s1, s2), t2)
  }

  class PRNG {
    const gen: Source
    var tape: Tape

    constructor NewFromSeed(gen: Source, s1: nat, s2: nat)
      ensures this.gen == gen && tape == gen(s1, s2)
    {
      this.gen := gen;
      tape := gen(s1, s2);
    }

    method Draw() returns (x: nat)
      modifies this
      ensures (x, tape) == DrawOn(old(tape))
    {
      if |tape| == 0 {
        x := CALM;
      } else {
        x, tape := tape[0], tape[1..];
      }
    }

    method Roll(low: int, high: int) returns (v: int)
      modifies this
      ensures (v, tape) == RollOn(old(tape), low, high)
    {
      var lo, hi := low, high;
      if hi < lo {
        lo, hi := hi, lo;
      }
      var delta := hi - lo + 1;
      var x := Draw();
      v := lo + x % delta;
    }

    /** The methods D4 to D100, which differ in `sides` only. */
    method Dice(n: int, sides: int) returns (result: int)
      requires sides >= 1
      modifies this
      ensures (result, tape) == DiceOn(old(tape), n, sides)
    {
      result := 0;
      var left := n;
      while left > 0
        invariant left <= n
        invariant DiceOn(old(tape), n, sides).0 == result + DiceOn(tape, left, sides).0
        invariant DiceOn(old(tape), n, sides).1 == DiceOn(tape, left, sides).1
      {
        var v := Roll(1, sides);
        result := result + v;
        left := left - 1;
      }
    }

    method Shuffle<T>(a: array<T>)
      modifies this, a
      ensures (a[..], tape) == ShuffleOn(old(tape), old(a[..]))
    {
      var i := a.Length - 1;
      ghost var target := ShuffleFrom(tape, a[..], i);
      while i > 0
        invariant i < a.Length
        invariant ShuffleFrom(tape, a[..], i) == target
      {
        ShuffleStep(tape, a[..], i);
        var j := Roll(0, i);
        SwapInPlace(a, i, j);
        i := i - 1;
      }
    }

    method Split() returns (child: PRNG)
      modifies this
      ensures fresh(child) && child.gen == gen
      ensures (child.tape, tape) == SplitOn(gen, old(tape))
    {
      var s1 := Draw();
      var s2 := Draw();
      child := new PRNG.NewFromSeed(gen, s1, s2);
    }
  }
}
