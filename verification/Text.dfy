/** ASCII text: trimming, lower case and decimal numerals. */
module Text {

  predicate IsSpace(c: char) {
    c == ' ' || '\t' <= c <= '\r'
  }

  function TrimLeft(s: string): (r: string) {
    if s != [] && IsSpace(s[0]) then TrimLeft(s[1..]) else s
  }

  function TrimRight(s: string): (r: string) {
    if s != [] && IsSpace(s[|s| - 1]) then TrimRight(s[..|s| - 1]) else s
  }

  function TrimSpace(s: string): (r: string) {
    TrimRight(TrimLeft(s))
  }

  function LowerChar(c: char): (r: char) {
    if 'A' <= c <= 'Z' then c - 'A' + 'a' else c
  }

  function ToLower(s: string): (r: string)
    ensures |r| == |s|
    ensures forall i :: 0 <= i < |s| ==> r[i] == LowerChar(s[i])
  {
    seq(|s|, i requires 0 <= i < |s| => LowerChar(s[i]))
  }

  predicate Blank(s: string) {
    forall i :: 0 <= i < |s| ==> IsSpace(s[i])
  }

  lemma {:induction false} LeftSplits(s: string) returns (a: string)
    ensures s == a + TrimLeft(s) && Blank(a)
    decreases |s|
  {
    hide IsSpace;
    if s != [] && IsSpace(s[0]) {
      var b := LeftSplits(s[1..]);
      a := [s[0]] + b;
      assert a + TrimLeft(s[1..]) == [s[0]] + (b + TrimLeft(s[1..])) == [s[0]] + s[1..] == s;
    } else {
      a := [];
    }
  }

  lemma {:induction false} RightSplits(s: string) returns (b: string)
    ensures s == TrimRight(s) + b && Blank(b)
    decreases |s|
  {
    hide IsSpace;
    if s != [] && IsSpace(s[|s| - 1]) {
      var n := |s| - 1;
      var a := RightSplits(s[..n]);
      b := a + [s[n]];
      assert TrimRight(s[..n]) + b == (TrimRight(s[..n]) + a) + [s[n]] == s[..n] + [s[n]] == s;
    } else {
      b := [];
    }
  }

  /** Trimming takes blanks off both ends. */
  lemma TrimSplits(s: string)
    ensures exists a, b :: s == a + TrimSpace(s) + b && Blank(a) && Blank(b)
  {
    hide TrimLeft, TrimRight, IsSpace;
    var a := LeftSplits(s);
    var b := RightSplits(TrimLeft(s));
    assert s == a + TrimSpace(s) + b;
  }

  lemma {:induction false} LeftTrimsTo(a: string, s: string)
    requires Blank(a) && s != [] && !IsSpace(s[0])
    ensures TrimLeft(a + s) == s
    decreases |a|
  {
    if a == [] {
      assert a + s == s;
    } else {
      assert (a + s)[1..] == a[1..] + s;
      LeftTrimsTo(a[1..], s);
    }
  }

  lemma {:induction false} RightTrimsTo(s: string, b: string)
    requires Blank(b) && s != [] && !IsSpace(s[|s| - 1])
    ensures TrimRight(s + b) == s
    decreases |b|
  {
    if b == [] {
      assert s + b == s;
    } else {
      var n := |b| - 1;
      assert (s + b)[..|s + b| - 1] == s + b[..n];
      RightTrimsTo(s, b[..n]);
    }
  }

  /** And all of them. */
  lemma TrimsTo(a: string, s: string, b: string)
    requires Blank(a) && Blank(b) && s != [] && !IsSpace(s[0]) && !IsSpace(s[|s| - 1])
    ensures TrimSpace(a + s + b) == s
  {
    assert a + s + b == a + (s + b);
    LeftTrimsTo(a, s + b);
    RightTrimsTo(s, b);
  }

  /** A word is meant by itself with blanks round it, in any case. */
  lemma MeantIff(s: string, word: string)
    requires word != [] && !IsSpace(word[0]) && !IsSpace(word[|word| - 1])
    ensures ToLower(TrimSpace(s)) == word
       <==> exists a, name, b :: s == a + name + b && Blank(a) && Blank(b) && ToLower(name) == word
  {
    TrimSplits(s);
    if exists a, name, b :: s == a + name + b && Blank(a) && Blank(b) && ToLower(name) == word {
      var a, name, b :| s == a + name + b && Blank(a) && Blank(b) && ToLower(name) == word;
      assert LowerChar(name[0]) == word[0] && LowerChar(name[|name| - 1]) == word[|word| - 1];
      TrimsTo(a, name, b);
    }
  }

  /** Text that starts and ends in something else than a space is not blank. */
  lemma NotBlank(s: string)
    requires s != [] && !IsSpace(s[0]) && !IsSpace(s[|s| - 1])
    ensures TrimSpace(s) == s
  {
  }

  // ----- decimal numerals -----

  function Digit(n: nat): (c: char)
    requires n < 10
  {
    "0123456789"[n]
  }

  function Itoa(n: nat): (s: string)
    ensures |s| >= 1
  {
    if n < 10 then [Digit(n)] else Itoa(n / 10) + [Digit(n % 10)]
  }

  function FormatInt(n: int): (s: string) {
    if n < 0 then "-" + Itoa(-n) else Itoa(n)
  }

  /** The parts with a separator between them. */
  function Join(parts: seq<string>, sep: string): (s: string) {
    if parts == [] then ""
    else if |parts| == 1 then parts[0]
    else Join(parts[..|parts| - 1], sep) + sep + parts[|parts| - 1]
  }

  function DigitValue(c: char): (n: int) {
    c as int - '0' as int
  }

  function Atoi(s: string): (n: int) {
    if s == [] then 0 else 10 * Atoi(s[..|s| - 1]) + DigitValue(s[|s| - 1])
  }

  /** Reading back what was written. */
  lemma {:induction false} AtoiItoa(n: nat)
    ensures Atoi(Itoa(n)) == n
    decreases n
  {
    var s := Itoa(n);
    if n >= 10 {
      AtoiItoa(n / 10);
      assert s[..|s| - 1] == Itoa(n / 10);
    } else {
      assert s[..0] == [];
    }
  }

  lemma {:induction false} ItoaDigits(n: nat)
    ensures forall i :: 0 <= i < |Itoa(n)| ==> '0' <= Itoa(n)[i] <= '9'
    decreases n
  {
    if n >= 10 {
      ItoaDigits(n / 10);
    }
  }

  /** Smaller numbers have no longer numerals. */
  lemma {:induction false} ItoaLonger(a: nat, b: nat)
    requires a <= b
    ensures |Itoa(a)| <= |Itoa(b)|
    decreases a
  {
    if a >= 10 {
      ItoaLonger(a / 10, b / 10);
    }
  }

  /** So different numbers have different numerals. */
  lemma ItoaInjective(a: nat, b: nat)
    requires Itoa(a) == Itoa(b)
    ensures a == b
  {
    AtoiItoa(a);
    AtoiItoa(b);
  }
}
