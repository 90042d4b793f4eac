/**
 Gas mixes kept as maps. A loop over a map visits its keys in an unspecified
 order, modelled by an arbitrary choice at every turn: what these methods
 ensure holds for every order.
 */
module GasMaps {
  import opened Atmosphere
  import opened Counting
  import opened Text

  type Mix = map<Gas, int>

  /** The map a slice of distinct gases amounts to. */
  function MixOf(s: seq<GasShare>): (m: Mix) {
    if s == [] then map[] else MixOf(s[..|s| - 1])[s[|s| - 1].gas := s[|s| - 1].percent]
  }

  predicate InRange(m: Mix) {
    forall g :: g in m ==> 1 <= g <= 13
  }

  /** The sum of the entries with keys in `keys` and at most `top`. */
  function SumIn(m: Mix, keys: set<Gas>, top: nat): (sum: int) {
    if top == 0 then 0
    else SumIn(m, keys, top - 1) + if top in keys && top in m then m[top] else 0
  }

  function MixTotal(m: Mix): (sum: int) {
    SumIn(m, m.Keys, 13)
  }

  lemma {:induction false} MixOfKeys(s: seq<GasShare>, g: Gas)
    ensures g in MixOf(s) <==> exists i :: 0 <= i < |s| && s[i].gas == g
  {
    if s != [] {
      var n := |s| - 1;
      MixOfKeys(s[..n], g);
      assert forall i :: 0 <= i < n ==> s[..n][i] == s[i];
      assert s[n].gas == g || (g in MixOf(s) <==> g in MixOf(s[..n]));
    }
  }

  lemma {:induction false} MixOfEntries(s: seq<GasShare>, i: nat)
    requires DistinctGases(s) && i < |s|
    ensures s[i].gas in MixOf(s) && MixOf(s)[s[i].gas] == s[i].percent
  {
    var n := |s| - 1;
    if i < n {
      MixOfEntries(s[..n], i);
      assert s[..n][i] == s[i];
      assert s[i].gas != s[n].gas;
    }
  }

  lemma {:induction false} MixOfSize(s: seq<GasShare>)
    requires DistinctGases(s)
    ensures |MixOf(s)| == |s|
  {
    if s != [] {
      var n := |s| - 1;
      MixOfSize(s[..n]);
      MixOfKeys(s[..n], s[n].gas);
      assert s[n].gas !in MixOf(s[..n]);
      assert MixOf(s).Keys == MixOf(s[..n]).Keys + {s[n].gas};
    }
  }

  /** A gas not met before adds one entry. */
  lemma MixOfGrows(s: seq<GasShare>, g: GasShare)
    requires DistinctGases(s) && forall i :: 0 <= i < |s| ==> s[i].gas != g.gas
    ensures DistinctGases(s + [g])
    ensures MixOf(s + [g]) == MixOf(s)[g.gas := g.percent]
    ensures |MixOf(s + [g])| == |s| + 1
  {
    assert (s + [g])[..|s|] == s;
    MixOfSize(s + [g]);
  }

  lemma MixOfInRange(s: seq<GasShare>)
    requires forall i :: 0 <= i < |s| ==> 1 <= s[i].gas <= 13
    ensures InRange(MixOf(s))
  {
    forall g | g in MixOf(s) ensures 1 <= g <= 13 {
      MixOfKeys(s, g);
    }
  }

  lemma {:induction false} SumWithout(m: Mix, keys: set<Gas>, g: Gas, top: nat)
    requires g in keys && g in m && 1 <= g
    ensures SumIn(m, keys, top) == SumIn(m, keys - {g}, top) + if g <= top then m[g] else 0
  {
    if top > 0 {
      SumWithout(m, keys, g, top - 1);
    }
  }

  lemma {:induction false} SumSame(m: Mix, m1: Mix, keys: set<Gas>, top: nat)
    requires forall g :: g in keys ==> (g in m <==> g in m1) && (g in m ==> m[g] == m1[g])
    ensures SumIn(m, keys, top) == SumIn(m1, keys, top)
  {
    if top > 0 {
      SumSame(m, m1, keys, top - 1);
    }
  }

  lemma {:induction false} SumNone(m: Mix, top: nat)
    ensures SumIn(m, {}, top) == 0
  {
    if top > 0 {
      SumNone(m, top - 1);
    }
  }

  /** The map adds up to what the slice does. */
  lemma {:induction false} MixOfTotal(s: seq<GasShare>)
    requires DistinctGases(s)
    requires forall i :: 0 <= i < |s| ==> 1 <= s[i].gas <= 13
    ensures MixTotal(MixOf(s)) == Total(s)
  {
    if s == [] {
      SumNone(map[], 13);
    } else {
      var n := |s| - 1;
      var g, m, front := s[n].gas, MixOf(s), MixOf(s[..n]);
      MixOfTotal(s[..n]);
      MixOfKeys(s[..n], g);
      assert g !in front;
      SumWithout(m, m.Keys, g, 13);
      assert m.Keys - {g} == front.Keys;
      SumSame(m, front, front.Keys, 13);
    }
  }

  function SharesOf(m: Mix, total: int): (r: Mix)
    requires total > 0
  {
    map g | g in m :: Share(m[g], total)
  }

  lemma {:induction false} MixOfShares(s: seq<GasShare>, total: int)
    requires total > 0 && DistinctGases(s)
    ensures MixOf(Shares(s, total)) == SharesOf(MixOf(s), total)
  {
    if s != [] {
      var n := |s| - 1;
      MixOfShares(s[..n], total);
      assert Shares(s, total)[..n] == Shares(s[..n], total);
    }
  }

  lemma {:induction false} MixOfUpdate(s: seq<GasShare>, i: nat, p: int)
    requires i < |s| && DistinctGases(s)
    ensures MixOf(s[i := s[i].(percent := p)]) == MixOf(s)[s[i].gas := p]
  {
    var n := |s| - 1;
    var s1 := s[i := s[i].(percent := p)];
    if i == n {
      assert s1[..n] == s[..n];
    } else {
      assert s1[..n] == s[..n][i := s[..n][i].(percent := p)];
      MixOfUpdate(s[..n], i, p);
      assert s[i].gas != s[n].gas;
    }
  }

  /** The total of a mix, added up in whatever order. */
  method AddUp(gases: Mix) returns (totalQuantity: int)
    requires InRange(gases)
    ensures totalQuantity == MixTotal(gases)
  {
    totalQuantity := 0;
    var todo := gases.Keys;
    while exists g :: g in todo
      decreases todo
      invariant todo <= gases.Keys
      invariant totalQuantity + SumIn(gases, todo, 13) == MixTotal(gases)
    {
      var gas :| gas in todo;
      SumWithout(gases, todo, gas, 13);
      totalQuantity := totalQuantity + gases[gas];
      todo := todo - {gas};
    }
    assert todo == {};
    SumNone(gases, 13);
  }

  /** Replace every quantity by its percentage, in whatever order, and return
      what of 100 is left over. */
  method ToPercent(gases: Mix, totalQuantity: int) returns (percents: Mix, percentUnallocated: int)
    requires InRange(gases) && totalQuantity > 0
    ensures percents == SharesOf(gases, totalQuantity)
    ensures percentUnallocated == 100 - MixTotal(percents)
  {
    ghost var target := SharesOf(gases, totalQuantity);
    assert target.Keys == gases.Keys;
    percents, percentUnallocated := gases, 100;
    var todo := gases.Keys;
    while exists g :: g in todo
      decreases todo
      invariant todo <= gases.Keys == percents.Keys
      invariant forall g :: g in gases ==> percents[g] == if g in todo then gases[g] else target[g]
      invariant percentUnallocated - SumIn(target, todo, 13) == 100 - MixTotal(target)
    {
      var gas :| gas in todo;
      SumWithout(target, todo, gas, 13);
      percents := percents[gas := 100 * percents[gas] / totalQuantity];
      percentUnallocated := percentUnallocated - percents[gas];
      todo := todo - {gas};
    }
    assert todo == {};
    SumNone(target, 13);
    forall g | g in gases ensures percents[g] == target[g] {
    }
    assert percents == target;
  }

  /** Normalise in place: the map form of Normalized, for every visiting order. */
  method NormalizeMix(quantities: Mix, firstGasFound: Gas, ghost s: seq<GasShare>) returns (gases: Mix)
    requires s != [] && DistinctGases(s) && Positive(s)
    requires forall i :: 0 <= i < |s| ==> 1 <= s[i].gas <= 13
    requires quantities == MixOf(s) && firstGasFound == s[0].gas
    ensures Total(s) > 0 && gases == MixOf(Normalized(s))
  {
    hide MixOf, Total, Share;
    TotalPositive(s);
    MixOfTotal(s);
    MixOfInRange(s);
    MixOfEntries(s, 0);
    var totalQuantity := AddUp(quantities);
    var percentUnallocated;
    gases, percentUnallocated := ToPercent(quantities, totalQuantity);
    ghost var pct := Shares(s, totalQuantity);
    MixOfShares(s, totalQuantity);
    MixOfTotal(pct);
    MixOfEntries(pct, 0);
    MixOfUpdate(pct, 0, pct[0].percent + percentUnallocated);
    gases := gases[firstGasFound := gases[firstGasFound] + percentUnallocated];
  }

  // ----- canonical order -----

  /** Percent descending, then gas ascending. */
  predicate Before(m: Mix, a: Gas, b: Gas)
    requires a in m && b in m
  {
    m[a] > m[b] || (m[a] == m[b] && a < b)
  }

  /** Every key of the map once, in strict order. */
  ghost predicate Listing(m: Mix, keys: seq<Gas>) {
    Ordered(m, keys) && forall g :: g in m ==> g in keys
  }

  ghost predicate Ordered(m: Mix, keys: seq<Gas>) {
    && (forall g :: g in keys ==> g in m)
    && (forall i, j :: 0 <= i < j < |keys| ==> Before(m, keys[i], keys[j]))
  }

  lemma FirstIsLeast(m: Mix, keys: seq<Gas>, g: Gas)
    requires Listing(m, keys) && g in m
    ensures keys != [] && (g == keys[0] || Before(m, keys[0], g))
  {
    assert g in keys;
    var i :| 0 <= i < |keys| && keys[i] == g;
    if i > 0 {
      assert Before(m, keys[0], keys[i]);
    }
  }

  /** A mix has one listing: no visiting order or sorting routine shows. */
  lemma {:induction false} ListingIsUnique(m: Mix, a: seq<Gas>, b: seq<Gas>)
    requires Listing(m, a) && Listing(m, b)
    ensures a == b
    decreases |a|
  {
    ListingSize(m, a);
    ListingSize(m, b);
    if a != [] {
      assert a[0] in a && b[0] in b;
      FirstIsLeast(m, a, b[0]);
      FirstIsLeast(m, b, a[0]);
      var m1 := m - {a[0]};
      ListingTail(m, a);
      ListingTail(m, b);
      ListingIsUnique(m1, a[1..], b[1..]);
    }
  }

  lemma ListingTail(m: Mix, keys: seq<Gas>)
    requires Listing(m, keys) && keys != []
    ensures Listing(m - {keys[0]}, keys[1..])
  {
    var m1 := m - {keys[0]};
    forall g ensures g in keys[1..] <==> g in m1 {
      assert g in keys <==> g == keys[0] || g in keys[1..];
      if g in keys[1..] {
        var i :| 0 <= i < |keys[1..]| && keys[1..][i] == g;
        assert Before(m, keys[0], keys[i + 1]);
      }
    }
  }

  /** One listing has as many entries as the mix. */
  lemma ListingSize(m: Mix, keys: seq<Gas>)
    requires Listing(m, keys)
    ensures |keys| == |m|
  {
    forall i, j | 0 <= i < j < |keys| ensures keys[i] != keys[j] {
      assert Before(m, keys[i], keys[j]);
    }
    DistinctCount(keys);
    assert Elems(keys) == m.Keys;
  }

  /** The keys in canonical order: gathered in whatever order, then sorted. */
  method SortedKeys(gases: Mix) returns (keys: seq<Gas>)
    ensures Listing(gases, keys)
  {
    keys := [];
    var todo := gases.Keys;
    while exists g :: g in todo
      decreases todo
      invariant todo <= gases.Keys
      invariant Ordered(gases, keys)
      invariant forall g :: g in keys <==> g in gases && g !in todo
    {
      var gas :| gas in todo;
      keys := Insert(gases, keys, gas);
      todo := todo - {gas};
    }
    assert todo == {};
  }

  /** Put one more key in its place. */
  method Insert(gases: Mix, keys: seq<Gas>, gas: Gas) returns (r: seq<Gas>)
    requires gas in gases && gas !in keys && Ordered(gases, keys)
    ensures forall g :: g in r <==> g in keys || g == gas
    ensures Ordered(gases, r)
  {
    var k := 0;
    while k < |keys| && Before(gases, keys[k], gas)
      invariant 0 <= k <= |keys|
      invariant forall i :: 0 <= i < k ==> Before(gases, keys[i], gas)
    {
      k := k + 1;
    }
    r := keys[..k] + [gas] + keys[k..];
    InsertKeepsOrder(gases, keys, gas, k);
  }

  lemma InsertKeepsOrder(m: Mix, keys: seq<Gas>, gas: Gas, k: nat)
    requires gas in m && gas !in keys && Ordered(m, keys) && k <= |keys|
    requires forall i :: 0 <= i < k ==> Before(m, keys[i], gas)
    requires k < |keys| ==> !Before(m, keys[k], gas)
    ensures Ordered(m, keys[..k] + [gas] + keys[k..])
    ensures forall g :: g in keys[..k] + [gas] + keys[k..] <==> g in keys || g == gas
  {
    var r := keys[..k] + [gas] + keys[k..];
    forall g ensures g in r <==> g in keys || g == gas {
      assert keys == keys[..k] + keys[k..];
    }
    forall j | k <= j < |keys| ensures Before(m, gas, keys[j]) {
      assert keys[k] in keys && keys[j] in keys;
      assert Before(m, gas, keys[k]);
      assert j == k || Before(m, keys[k], keys[j]);
    }
    forall i, j | 0 <= i < j < |r| ensures Before(m, r[i], r[j]) {
      if j < k {
        assert r[i] == keys[i] && r[j] == keys[j];
      } else if j == k {
        assert r[i] == keys[i];
      } else if i == k {
        assert r[j] == keys[j - 1];
      } else if i < k {
        assert r[i] == keys[i] && r[j] == keys[j - 1];
      } else {
        assert r[i] == keys[i - 1] && r[j] == keys[j - 1];
      }
    }
  }

  function GasName(g: Gas): (name: string) {
    if 1 <= g <= 13
    then ["H2", "CH4", "He", "NH3", "N2", "CO2", "O2", "HCl", "Cl2", "F2", "H2O", "SO2", "H2S"][g - 1]
    else "?"
  }

  datatype GasDoc = GasDoc(gas: string, percent: int)

  ghost predicate DocsFor(m: Mix, keys: seq<Gas>, docs: seq<GasDoc>) {
    && Listing(m, keys) && |docs| == |keys|
    && forall i :: 0 <= i < |keys| ==> keys[i] in m && docs[i] == GasDoc(GasName(keys[i]), m[keys[i]])
  }

  method SortGasMap(gases: Mix) returns (out: seq<GasDoc>)
    ensures exists keys :: DocsFor(gases, keys, out)
  {
    if |gases| == 0 {
      assert DocsFor(gases, [], []);
      return [];
    }
    var keys := SortedKeys(gases);
    out := [];
    var i := 0;
    while i < |keys|
      invariant 0 <= i <= |keys| && |out| == i
      invariant forall j :: 0 <= j < i ==> out[j] == GasDoc(GasName(keys[j]), gases[keys[j]])
    {
      assert keys[i] in keys;
      out := out + [GasDoc(GasName(keys[i]), gases[keys[i]])];
      i := i + 1;
    }
    assert DocsFor(gases, keys, out);
  }

  /** The document lists each gas once, the larger share first and equal shares
      in the order of the gases. */
  lemma DocsDescend(m: Mix, keys: seq<Gas>, docs: seq<GasDoc>)
    requires DocsFor(m, keys, docs)
    ensures forall i, j :: 0 <= i < j < |docs| ==>
              docs[i].percent > docs[j].percent || (docs[i].percent == docs[j].percent && keys[i] < keys[j])
    ensures |docs| == |m| && forall i :: 0 <= i < |docs| ==> keys[i] in m && docs[i].percent == m[keys[i]]
  {
    ListingSize(m, keys);
  }

  lemma NamesDiffer(a: Gas, b: Gas)
    requires 1 <= a <= 13 && 1 <= b <= 13 && GasName(a) == GasName(b)
    ensures a == b
  {
    var x, y := GasName(a), GasName(b);
    assert |x| == |y| && x[0] == y[0] && x[1] == y[1] && (|x| > 2 ==> x[2] == y[2]);
  }

  /** And the mix can be read back from its document. */
  lemma DocsReadBack(m1: Mix, k1: seq<Gas>, m2: Mix, k2: seq<Gas>, docs: seq<GasDoc>)
    requires InRange(m1) && InRange(m2) && DocsFor(m1, k1, docs) && DocsFor(m2, k2, docs)
    ensures m1 == m2
  {
    hide GasName;
    forall i | 0 <= i < |docs| ensures k1[i] == k2[i] {
      assert k1[i] in m1 && k2[i] in m2;
      NamesDiffer(k1[i], k2[i]);
    }
    assert k1 == k2;
    forall g ensures g in m1 <==> g in m2 {
      assert g in m1 <==> g in k1;
    }
    forall g | g in m1 ensures m1[g] == m2[g] {
      var i :| 0 <= i < |k1| && k1[i] == g;
      assert docs[i].percent == m1[g];
    }
  }

  /** So the document of a mix is determined by the mix. */
  lemma DocsAreUnique(m: Mix, k1: seq<Gas>, d1: seq<GasDoc>, k2: seq<Gas>, d2: seq<GasDoc>)
    requires DocsFor(m, k1, d1) && DocsFor(m, k2, d2)
    ensures d1 == d2
  {
    ListingIsUnique(m, k1, k2);
  }

  function LabelPart(m: Mix, g: Gas): (part: string)
    requires g in m
  {
    GasName(g) + " " + FormatInt(m[g]) + "%"
  }

  /** The label's parts, one per gas in canonical order. */
  function LabelParts(m: Mix, keys: seq<Gas>): (parts: seq<string>)
    requires forall g :: g in keys ==> g in m
    ensures |parts| == |keys|
    ensures forall i :: 0 <= i < |keys| ==> keys[i] in m && parts[i] == LabelPart(m, keys[i])
  {
    seq(|keys|, i requires 0 <= i < |keys| => assert keys[i] in keys; LabelPart(m, keys[i]))
  }

  ghost predicate LabelFor(m: Mix, keys: seq<Gas>, text: string) {
    && Listing(m, keys)
    && text == if keys == [] then "\U{2014}" else Join(LabelParts(m, keys), ", ")
  }

  method GasMixLabel(gases: Mix) returns (text: string)
    ensures exists keys :: LabelFor(gases, keys, text)
  {
    hide LabelPart, Join;
    if |gases| == 0 {
      assert LabelFor(gases, [], "\U{2014}");
      return "\U{2014}";
    }
    var keys := SortedKeys(gases);
    ListingSize(gases, keys);
    ghost var target := LabelParts(gases, keys);
    var parts: seq<string> := [];
    var i := 0;
    while i < |keys|
      invariant 0 <= i <= |keys| && |parts| == i
      invariant forall k :: 0 <= k < i ==> parts[k] == target[k]
    {
      parts := parts + [LabelPart(gases, keys[i])];
      i := i + 1;
    }
    assert parts == target;
    text := Join(parts, ", ");
    assert LabelFor(gases, keys, text);
  }

  /** The entries of a document, written out. */
  function Written(docs: seq<GasDoc>): (parts: seq<string>)
    ensures |parts| == |docs|
  {
    seq(|docs|, i requires 0 <= i < |docs| => docs[i].gas + " " + FormatInt(docs[i].percent) + "%")
  }

  /** The label writes out the document. */
  lemma LabelWritesDocs(m: Mix, k1: seq<Gas>, docs: seq<GasDoc>, k2: seq<Gas>, text: string)
    requires DocsFor(m, k1, docs) && LabelFor(m, k2, text)
    ensures text == if docs == [] then "\U{2014}" else Join(Written(docs), ", ")
  {
    hide Join, GasName, FormatInt;
    ListingIsUnique(m, k1, k2);
    if docs != [] {
      assert LabelParts(m, k2) == Written(docs);
    }
  }

  /** And so is its label: no visiting order shows in the report. */
  lemma LabelIsUnique(m: Mix, k1: seq<Gas>, l1: string, k2: seq<Gas>, l2: string)
    requires LabelFor(m, k1, l1) && LabelFor(m, k2, l2)
    ensures l1 == l2
  {
    ListingIsUnique(m, k1, k2);
  }
}
