/** The damage assessment ledger: damage records, the per-severity cost table,
    the summed cost range and the index filter used to remove an entry. */
module Ledger {

  datatype Severity = Minor | Moderate | Major | Severe

  /** One detected damage. `kind` is the free-text damage type label. */
  datatype Damage = Damage(kind: string, severity: Severity, confidence: int, edited: bool)

  datatype CostRange = CostRange(min: int, max: int)

  /** The severity as it is spelled in the selector and in audit details. */
  function SeverityName(s: Severity): (n: string)
    ensures |n| >= 5 && 'A' <= n[0] <= 'Z'
    ensures forall k :: 1 <= k < |n| ==> 'a' <= n[k] <= 'z'
  {
    match s
    case Minor => "Minor"
    case Moderate => "Moderate"
    case Major => "Major"
    case Severe => "Severe"
  }

  /** No two severities are spelled alike (their second letters already differ). */
  lemma SeverityNameInjective(s: Severity, t: Severity)
    ensures SeverityName(s) == SeverityName(t) <==> s == t
  {
    assert SeverityName(Minor)[1] == 'i';
    assert SeverityName(Moderate)[1] == 'o';
    assert SeverityName(Major)[1] == 'a';
    assert SeverityName(Severe)[1] == 'e';
  }

  /** The fixed repair cost range for one damage of the given severity. */
  function SeverityCost(s: Severity): (c: CostRange)
    ensures 0 < c.min < c.max
    ensures (c.min + c.max) % 2 == 0
    ensures 200 <= c.min <= 2500 && 500 <= c.max <= 5000
  {
    match s
    case Minor => CostRange(200, 500)
    case Moderate => CostRange(500, 1200)
    case Major => CostRange(1200, 2500)
    case Severe => CostRange(2500, 5000)
  }

  function Add(a: CostRange, b: CostRange): CostRange {
    CostRange(a.min + b.min, a.max + b.max)
  }

  /** The cost range of a whole list: the table summed over its entries, in list order. */
  function SumCost(ds: seq<Damage>): (c: CostRange)
    ensures 0 <= c.min <= c.max
    ensures |ds| > 0 ==> c.min > 0
  {
    if |ds| == 0 then CostRange(0, 0)
    else Add(SumCost(ds[..|ds| - 1]), SeverityCost(ds[|ds| - 1].severity))
  }

  /** `Math.round(n / 2)`: the nearest integer to n/2, halves rounded up. */
  function RoundHalf(n: int): (r: int)
    ensures n <= 2 * r <= n + 1
    ensures n % 2 == 0 ==> 2 * r == n
  {
    (n + 1) / 2
  }

  /** The midpoint of a cost range as the source rounds it; exact when the bounds
      add up to an even number. */
  function Midpoint(c: CostRange): (m: int)
    ensures c.min + c.max >= 0 ==> m >= 0
    ensures (c.min + c.max) % 2 == 0 ==> 2 * m == c.min + c.max
  {
    RoundHalf(c.min + c.max)
  }

  /** `filter((_, i) => i !== index)`: keeps every entry whose position is not `index`. */
  function WithoutIndex(ds: seq<Damage>, index: int): (r: seq<Damage>)
    ensures |r| <= |ds|
  {
    if |ds| == 0 then []
    else WithoutIndex(ds[..|ds| - 1], index) + (if |ds| - 1 == index then [] else [ds[|ds| - 1]])
  }

  /** `updateDamageSeverity`'s list: entry `i` takes the new severity and is
      marked edited; the list keeps its length and every other entry. */
  function WithSeverity(ds: seq<Damage>, i: nat, s: Severity): (r: seq<Damage>)
    requires i < |ds|
    ensures |r| == |ds|
    ensures r[i].severity == s && r[i].edited
    ensures r[i].kind == ds[i].kind && r[i].confidence == ds[i].confidence
    ensures forall k :: 0 <= k < |ds| && k != i ==> r[k] == ds[k]
  {
    ds[i := ds[i].(severity := s, edited := true)]
  }

  /** `updateDamageType`'s list: entry `i` takes the new label and is marked
      edited; the list keeps its length and every other entry. */
  function WithKind(ds: seq<Damage>, i: nat, kind: string): (r: seq<Damage>)
    requires i < |ds|
    ensures |r| == |ds|
    ensures r[i].kind == kind && r[i].edited
    ensures r[i].severity == ds[i].severity && r[i].confidence == ds[i].confidence
    ensures forall k :: 0 <= k < |ds| && k != i ==> r[k] == ds[k]
  {
    ds[i := ds[i].(kind := kind, edited := true)]
  }

  /** The four entries the automated assessment produces. */
  function Seed(): (s: seq<Damage>)
    ensures |s| == 4
    ensures forall k :: 0 <= k < |s| ==> !s[k].edited && 0 <= s[k].confidence <= 100
  {
    [ Damage("Front Bumper Damage", Moderate, 94, false),
      Damage("Hood Dent", Minor, 87, false),
      Damage("Headlight Crack", Major, 96, false),
      Damage("Paint Scratches", Minor, 91, false) ]
  }

  /** The entry appended by "Add Damage Entry". */
  function NewDamage(): (d: Damage)
    ensures d.edited && d.confidence == 0
    ensures SeverityCost(d.severity) == CostRange(200, 500)
  {
    Damage("New Damage", Minor, 0, true)
  }

  // ---- properties of the cost sum ----

  lemma SumCostAppend(ds: seq<Damage>, d: Damage)
    ensures SumCost(ds + [d]) == Add(SumCost(ds), SeverityCost(d.severity))
  {
    assert (ds + [d])[..|ds|] == ds;
  }

  /** The bounds of a summed range always add up to an even number, so its
      midpoint is exact. */
  lemma {:induction false} SumCostEven(ds: seq<Damage>)
    ensures (SumCost(ds).min + SumCost(ds).max) % 2 == 0
  {
    if |ds| > 0 {
      var p := ds[..|ds| - 1];
      SumCostEven(p);
      var a, c := SumCost(p), SeverityCost(ds[|ds| - 1].severity);
      assert SumCost(ds) == Add(a, c);
      assert (a.min + a.max) % 2 == 0 && (c.min + c.max) % 2 == 0;
      assert SumCost(ds).min + SumCost(ds).max == (a.min + a.max) + (c.min + c.max);
    }
  }

  /** The midpoint of a summed range is exactly half its bounds' sum: rounding
      never applies to a recalculated estimate. */
  lemma MidpointExact(ds: seq<Damage>)
    ensures 2 * Midpoint(SumCost(ds)) == SumCost(ds).min + SumCost(ds).max
  {
    SumCostEven(ds);
  }

  /** The sum over a concatenation is the sum of the sums. */
  lemma {:induction false} SumCostConcat(a: seq<Damage>, b: seq<Damage>)
    ensures SumCost(a + b) == Add(SumCost(a), SumCost(b))
  {
    if |b| == 0 {
      assert a + b == a;
    } else {
      var b' := b[..|b| - 1];
      var d := b[|b| - 1];
      assert a + b == (a + b') + [d];
      assert b == b' + [d];
      SumCostConcat(a, b');
      SumCostAppend(a + b', d);
      SumCostAppend(b', d);
    }
  }

  /** Swapping the two halves of a list does not change its cost. */
  lemma SumCostSwapHalves(a: seq<Damage>, b: seq<Damage>)
    ensures SumCost(a + b) == SumCost(b + a)
  {
    SumCostConcat(a, b);
    SumCostConcat(b, a);
  }

  /** The first k + 1 entries are the first k followed by entry k. */
  lemma PrefixStep(ds: seq<Damage>, k: int)
    requires 0 <= k < |ds|
    ensures ds[..k + 1] == ds[..k] + [ds[k]]
  {
  }

  /** Summing one more entry of a list adds that entry's table range. */
  lemma SumCostPrefix(ds: seq<Damage>, k: int)
    requires 0 <= k < |ds|
    ensures SumCost(ds[..k + 1]) == Add(SumCost(ds[..k]), SeverityCost(ds[k].severity))
  {
    PrefixStep(ds, k);
    SumCostAppend(ds[..k], ds[k]);
  }

  /** A list is its prefix before i, its entry i and its suffix after i. */
  lemma SplitAt(ds: seq<Damage>, i: int)
    requires 0 <= i < |ds|
    ensures ds == (ds[..i] + [ds[i]]) + ds[i + 1..]
  {
    assert ds[..i + 1] == ds[..i] + [ds[i]];
    assert ds == ds[..i + 1] + ds[i + 1..];
  }

  /** Dropping position i removes one occurrence of that entry from the list's multiset. */
  lemma RemoveMultiset(ds: seq<Damage>, i: int)
    requires 0 <= i < |ds|
    ensures multiset(ds[..i] + ds[i + 1..]) == multiset(ds) - multiset{ds[i]}
  {
    SplitAt(ds, i);
    assert multiset(ds) == multiset(ds[..i]) + multiset{ds[i]} + multiset(ds[i + 1..]);
  }

  /** Removing position i subtracts exactly that entry's table range. */
  lemma SumCostRemove(ds: seq<Damage>, i: int)
    requires 0 <= i < |ds|
    ensures SumCost(ds) == Add(SumCost(ds[..i] + ds[i + 1..]), SeverityCost(ds[i].severity))
  {
    var pre, d, post := ds[..i], ds[i], ds[i + 1..];
    SplitAt(ds, i);
    SumCostConcat(pre + [d], post);
    SumCostAppend(pre, d);
    SumCostConcat(pre, post);
  }

  /** The cost depends only on which entries the list holds, not on their order:
      any two lists that are permutations of each other cost the same. */
  lemma {:induction false} SumCostPermutation(a: seq<Damage>, b: seq<Damage>)
    requires multiset(a) == multiset(b)
    ensures SumCost(a) == SumCost(b)
    decreases |b|
  {
    if |b| == 0 {
      assert |a| == |multiset(a)| == 0;
    } else {
      var b', d := b[..|b| - 1], b[|b| - 1];
      assert b == b' + [d];
      assert multiset(b) == multiset(b') + multiset{d};
      assert d in multiset(a);
      var i :| 0 <= i < |a| && a[i] == d;
      var a' := a[..i] + a[i + 1..];
      RemoveMultiset(a, i);
      assert multiset(a') == multiset(b');
      SumCostPermutation(a', b');
      SumCostRemove(a, i);
      SumCostAppend(b', d);
    }
  }

  /** Replacing position i trades that entry's table range for the new entry's. */
  lemma SumCostReplace(ds: seq<Damage>, i: int, d: Damage)
    requires 0 <= i < |ds|
    ensures Add(SumCost(ds[i := d]), SeverityCost(ds[i].severity)) == Add(SumCost(ds), SeverityCost(d.severity))
  {
    var ds' := ds[i := d];
    assert ds'[..i] + ds'[i + 1..] == ds[..i] + ds[i + 1..];
    SumCostRemove(ds, i);
    SumCostRemove(ds', i);
  }

  /** A severity edit moves the cost by the difference of the two table ranges. */
  lemma SeverityEditCost(ds: seq<Damage>, i: nat, s: Severity)
    requires i < |ds|
    ensures Add(SumCost(WithSeverity(ds, i, s)), SeverityCost(ds[i].severity)) == Add(SumCost(ds), SeverityCost(s))
  {
    SumCostReplace(ds, i, WithSeverity(ds, i, s)[i]);
  }

  /** A label edit leaves the cost as it was. */
  lemma KindEditCost(ds: seq<Damage>, i: nat, kind: string)
    requires i < |ds|
    ensures SumCost(WithKind(ds, i, kind)) == SumCost(ds)
  {
    SumCostReplace(ds, i, WithKind(ds, i, kind)[i]);
  }

  /** Adding the default entry raises the cost by the Minor range, (200, 500). */
  lemma AddNewDamageCost(ds: seq<Damage>)
    ensures SumCost(ds + [NewDamage()]) == CostRange(SumCost(ds).min + 200, SumCost(ds).max + 500)
  {
    SumCostAppend(ds, NewDamage());
  }

  // ---- properties of the filter ----

  /** The filter drops exactly position `index` when it exists, preserving the order
      of the rest, and keeps the list as it is otherwise. */
  lemma {:induction false} WithoutIndexSpec(ds: seq<Damage>, index: int)
    ensures 0 <= index < |ds| ==> WithoutIndex(ds, index) == ds[..index] + ds[index + 1..]
    ensures !(0 <= index < |ds|) ==> WithoutIndex(ds, index) == ds
  {
    if |ds| > 0 {
      var p := ds[..|ds| - 1];
      var last := ds[|ds| - 1];
      WithoutIndexSpec(p, index);
      if index == |ds| - 1 {
        assert ds[..index] == p;
        assert ds[index + 1..] == [];
      } else if 0 <= index < |p| {
        assert p[..index] == ds[..index];
        assert p[index + 1..] + [last] == ds[index + 1..];
      } else {
        assert p + [last] == ds;
      }
    }
  }

  /** Removing an existing entry lowers the cost by exactly that entry's range;
      an index outside the list leaves the cost as it was. */
  lemma RemoveCost(ds: seq<Damage>, index: int)
    ensures 0 <= index < |ds| ==>
      Add(SumCost(WithoutIndex(ds, index)), SeverityCost(ds[index].severity)) == SumCost(ds)
    ensures !(0 <= index < |ds|) ==> SumCost(WithoutIndex(ds, index)) == SumCost(ds)
  {
    WithoutIndexSpec(ds, index);
    if 0 <= index < |ds| {
      SumCostRemove(ds, index);
    }
  }

  // ---- worked examples ----

  /** The seed list costs (2100, 4700), midpoint 3400. */
  lemma SeedCost()
    ensures SumCost(Seed()) == CostRange(2100, 4700)
    ensures Midpoint(SumCost(Seed())) == 3400
  {
    var s := Seed();
    assert s[..1][..0] == [];
    assert s[..2][..1] == s[..1];
    assert s[..3][..2] == s[..2];
    assert s[..3] == s[..|s| - 1];
    assert SumCost(s[..1]) == CostRange(500, 1200);
    assert SumCost(s[..2]) == CostRange(700, 1700);
    assert SumCost(s[..3]) == CostRange(1900, 4200);
  }

  /** Removing the Major entry (position 2) from the seed leaves (900, 2200). */
  lemma SeedWithoutMajorCost()
    ensures SumCost(WithoutIndex(Seed(), 2)) == CostRange(900, 2200)
  {
    WithoutIndexSpec(Seed(), 2);
    SumCostRemove(Seed(), 2);
    SeedCost();
  }
}
