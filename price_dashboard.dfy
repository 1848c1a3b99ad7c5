/** The analysis of src/components/PriceDashboard.tsx: entries grouped by
    supplier, the mean price of each group, the least-squares slope of a
    group's prices against their position, and the low-price alerts.
    Prices are exact reals. */
module PriceDashboard {
  import opened PriceTypes
  import opened PriceTrend

  function Min(a: int, b: int): int
  {
    if a <= b then a else b
  }

  // ---------------------------------------------------------------------
  // Grouping by supplier

  /** `supplierData`: an object from supplier name to that supplier's
      entries. `keys` is the object's key order, the order in which the keys
      were first set, which `Object.entries` follows. */
  datatype Groups = Groups(keys: seq<string>, entriesOf: map<string, seq<PriceEntry>>)

  /** The keys are distinct and are exactly the object's properties. */
  predicate WellFormed(g: Groups)
  {
    && (forall i, j :: 0 <= i < j < |g.keys| ==> g.keys[i] != g.keys[j])
    && (forall s :: s in g.entriesOf ==> s in g.keys)
    && (forall i :: 0 <= i < |g.keys| ==> g.keys[i] in g.entriesOf)
  }

  /** The entries of `es` from supplier `s`, in their order in `es`: the
      reference partition the grouping is checked against. */
  function OfSupplier(es: seq<PriceEntry>, s: string): seq<PriceEntry>
  {
    if es == [] then []
    else OfSupplier(es[..|es| - 1], s) + (if es[|es| - 1].supplier == s then [es[|es| - 1]] else [])
  }

  /** The body of the grouping `reduce`: create the supplier's array when
      the key is not set (a new key goes last in key order), then push the
      entry onto it. */
  function AddEntry(g: Groups, e: PriceEntry): (r: Groups)
    ensures r.keys == if e.supplier in g.entriesOf then g.keys else g.keys + [e.supplier]
    ensures r.entriesOf.Keys == g.entriesOf.Keys + {e.supplier}
    ensures forall s :: s in g.entriesOf && s != e.supplier ==> r.entriesOf[s] == g.entriesOf[s]
    ensures r.entriesOf[e.supplier] == (if e.supplier in g.entriesOf then g.entriesOf[e.supplier] else []) + [e]
  {
    var s := e.supplier;
    if s in g.entriesOf then Groups(g.keys, g.entriesOf[s := g.entriesOf[s] + [e]])
    else Groups(g.keys + [s], g.entriesOf[s := [e]])
  }

  /** The step keeps the keys distinct and equal to the properties. */
  lemma AddEntryWellFormed(g: Groups, e: PriceEntry)
    requires WellFormed(g)
    ensures WellFormed(AddEntry(g, e))
  {
    if e.supplier !in g.entriesOf {
      assert forall i :: 0 <= i < |g.keys| ==> g.keys[i] != e.supplier;
    }
  }

  /** `supplierData`: the grouping `reduce` over the entries, left to right,
      from the empty object. */
  function GroupBySupplier(es: seq<PriceEntry>): Groups
  {
    if es == [] then Groups([], map[]) else AddEntry(GroupBySupplier(es[..|es| - 1]), es[|es| - 1])
  }

  /** `g` partitions `es` by supplier: the keys are distinct, every entry's
      supplier is a key, and the array of each key is exactly that
      supplier's entries in list order, never empty. */
  predicate Grouped(g: Groups, es: seq<PriceEntry>)
  {
    && WellFormed(g)
    && (forall k :: 0 <= k < |es| ==> es[k].supplier in g.entriesOf)
    && (forall s :: s in g.entriesOf ==> g.entriesOf[s] == OfSupplier(es, s) && g.entriesOf[s] != [])
  }

  lemma {:induction false} OfSupplierNone(es: seq<PriceEntry>, s: string)
    requires forall k :: 0 <= k < |es| ==> es[k].supplier != s
    ensures OfSupplier(es, s) == []
  {
    if es != [] {
      OfSupplierNone(es[..|es| - 1], s);
    }
  }

  /** One step of the fold keeps the partition: grouping the last entry
      of `es` into a partition of the entries before it gives a partition
      of `es`. */
  lemma {:induction false} GroupStep(g: Groups, es: seq<PriceEntry>)
    requires es != [] && Grouped(g, es[..|es| - 1])
    ensures Grouped(AddEntry(g, es[|es| - 1]), es)
  {
    AddEntryWellFormed(g, es[|es| - 1]);
    StepKeepsGroups(g, es);
    StepKeepsCover(g, es);
  }

  lemma {:induction false} StepKeepsGroups(g: Groups, es: seq<PriceEntry>)
    requires es != [] && Grouped(g, es[..|es| - 1])
    ensures var r := AddEntry(g, es[|es| - 1]);
      forall s :: s in r.entriesOf ==> r.entriesOf[s] == OfSupplier(es, s) && r.entriesOf[s] != []
  {
    var p, e := es[..|es| - 1], es[|es| - 1];
    var r := AddEntry(g, e);
    if e.supplier !in g.entriesOf {
      OfSupplierNone(p, e.supplier);
    }
    forall s | s in r.entriesOf
      ensures r.entriesOf[s] == OfSupplier(es, s) && r.entriesOf[s] != []
    {
      assert OfSupplier(es, s) == OfSupplier(p, s) + (if e.supplier == s then [e] else []);
    }
  }

  lemma {:induction false} StepKeepsCover(g: Groups, es: seq<PriceEntry>)
    requires es != [] && Grouped(g, es[..|es| - 1])
    ensures forall k :: 0 <= k < |es| ==> es[k].supplier in AddEntry(g, es[|es| - 1]).entriesOf
  {
    var p := es[..|es| - 1];
    assert forall k :: 0 <= k < |p| ==> es[k] == p[k];
  }

  /** The grouping reduce is a partition of the entries by supplier. */
  lemma {:induction false} GroupBySupplierPartition(es: seq<PriceEntry>)
    ensures Grouped(GroupBySupplier(es), es)
  {
    if es != [] {
      GroupBySupplierPartition(es[..|es| - 1]);
      GroupStep(GroupBySupplier(es[..|es| - 1]), es);
    }
  }

  /** The number of entries held under the keys `ks`. */
  function SizeOver(ks: seq<string>, m: map<string, seq<PriceEntry>>): nat
    requires forall k :: k in ks ==> k in m
  {
    if ks == [] then 0 else SizeOver(ks[..|ks| - 1], m) + |m[ks[|ks| - 1]]|
  }

  lemma {:induction false} SizeOverOther(ks: seq<string>, m: map<string, seq<PriceEntry>>, s: string, v: seq<PriceEntry>)
    requires forall k :: k in ks ==> k in m
    requires s !in ks
    ensures SizeOver(ks, m[s := v]) == SizeOver(ks, m)
  {
    if ks != [] {
      SizeOverOther(ks[..|ks| - 1], m, s, v);
    }
  }

  lemma {:induction false} SizeOverUpdate(ks: seq<string>, m: map<string, seq<PriceEntry>>, s: string, v: seq<PriceEntry>)
    requires forall k :: k in ks ==> k in m
    requires forall i, j :: 0 <= i < j < |ks| ==> ks[i] != ks[j]
    requires s in ks
    ensures SizeOver(ks, m[s := v]) + |m[s]| == SizeOver(ks, m) + |v|
  {
    var p, k := ks[..|ks| - 1], ks[|ks| - 1];
    if k == s {
      assert forall i :: 0 <= i < |p| ==> p[i] != ks[|ks| - 1];
      SizeOverOther(p, m, s, v);
    } else {
      assert s in p by {
        var i :| 0 <= i < |ks| && ks[i] == s;
        assert p[i] == s;
      }
      SizeOverUpdate(p, m, s, v);
    }
  }

  /** The grouping loses and duplicates no entry: the arrays together hold
      as many entries as the list. */
  lemma {:induction false} GroupBySupplierSize(es: seq<PriceEntry>)
    ensures var g := GroupBySupplier(es);
      WellFormed(g) && SizeOver(g.keys, g.entriesOf) == |es|
  {
    if es != [] {
      var init, e := es[..|es| - 1], es[|es| - 1];
      var g := GroupBySupplier(init);
      GroupBySupplierSize(init);
      AddEntryWellFormed(g, e);
      var s := e.supplier;
      if s in g.entriesOf {
        SizeOverUpdate(g.keys, g.entriesOf, s, g.entriesOf[s] + [e]);
      } else {
        assert s !in g.keys;
        SizeOverOther(g.keys, g.entriesOf, s, [e]);
        assert (g.keys + [s])[..|g.keys|] == g.keys;
      }
    }
  }

  /** A supplier whose group is not empty has an entry in the list. */
  lemma {:induction false} OfSupplierSome(es: seq<PriceEntry>, s: string)
    requires OfSupplier(es, s) != []
    ensures exists k :: 0 <= k < |es| && es[k].supplier == s
  {
    var p := es[..|es| - 1];
    if es[|es| - 1].supplier != s {
      OfSupplierSome(p, s);
      var k :| 0 <= k < |p| && p[k].supplier == s;
      assert es[k] == p[k];
    }
  }

  /** Every supplier of the list is a key. */
  predicate Covers(keys: seq<string>, es: seq<PriceEntry>)
  {
    forall k :: 0 <= k < |es| ==> es[k].supplier in keys
  }

  /** One of the first `n` entries of `es` is from supplier `s`. */
  predicate EntryBefore(es: seq<PriceEntry>, s: string, n: nat)
  {
    exists k :: 0 <= k < n && k < |es| && es[k].supplier == s
  }

  /** Every key has an entry in the list. */
  predicate Witnessed(keys: seq<string>, es: seq<PriceEntry>)
  {
    forall i :: 0 <= i < |keys| ==> EntryBefore(es, keys[i], |es|)
  }

  /** For keys i < j, an entry of the i-th supplier comes before every
      entry of the j-th. */
  predicate Ordered(keys: seq<string>, es: seq<PriceEntry>)
  {
    forall i, j, k :: 0 <= i < j < |keys| && 0 <= k < |es| && es[k].supplier == keys[j] ==>
      EntryBefore(es, keys[i], k)
  }

  /** `keys` lists the suppliers of `es` in the order of their first
      entries. */
  predicate FirstAppearanceOrder(keys: seq<string>, es: seq<PriceEntry>)
  {
    Covers(keys, es) && Witnessed(keys, es) && Ordered(keys, es)
  }

  /** The keys of the grouping, and so the rows of `averagePrices` and of
      the analysis panel, come in first-appearance order. */
  lemma {:induction false} GroupKeyOrder(es: seq<PriceEntry>)
    ensures FirstAppearanceOrder(GroupBySupplier(es).keys, es)
  {
    if es != [] {
      GroupKeyOrder(es[..|es| - 1]);
      KeysStep(es);
      OrderStep(es, GroupBySupplier(es[..|es| - 1]).keys, GroupBySupplier(es).keys);
    }
  }

  /** The keys after one step of the fold: the last entry's supplier is
      appended when it is not a key yet. */
  lemma KeysStep(es: seq<PriceEntry>)
    requires es != []
    ensures var ks := GroupBySupplier(es[..|es| - 1]).keys;
      GroupBySupplier(es).keys == if es[|es| - 1].supplier in ks then ks else ks + [es[|es| - 1].supplier]
  {
    GroupBySupplierSize(es[..|es| - 1]);
  }

  /** Adding an entry keeps the order, whether its supplier is a key
      already or becomes the last one. */
  lemma OrderStep(es: seq<PriceEntry>, ks: seq<string>, keys: seq<string>)
    requires es != [] && FirstAppearanceOrder(ks, es[..|es| - 1])
    requires keys == if es[|es| - 1].supplier in ks then ks else ks + [es[|es| - 1].supplier]
    ensures FirstAppearanceOrder(keys, es)
  {
    var p, e := es[..|es| - 1], es[|es| - 1];
    assert es == p + [e];
    CoversStep(p, e, ks, keys);
    WitnessedStep(p, e, ks, keys);
    if e.supplier in ks {
      OrderedOld(p, e, keys);
    } else {
      OrderedNew(p, e, ks);
    }
  }

  lemma CoversStep(p: seq<PriceEntry>, e: PriceEntry, ks: seq<string>, keys: seq<string>)
    requires Covers(ks, p)
    requires keys == ks || keys == ks + [e.supplier]
    requires e.supplier in keys
    ensures Covers(keys, p + [e])
  {
    var es := p + [e];
    forall k | 0 <= k < |es|
      ensures es[k].supplier in keys
    {
      if k < |p| {
        assert es[k] == p[k];
        assert p[k].supplier in ks;
      }
    }
  }

  lemma WitnessedStep(p: seq<PriceEntry>, e: PriceEntry, ks: seq<string>, keys: seq<string>)
    requires Witnessed(ks, p)
    requires keys == ks || keys == ks + [e.supplier]
    ensures Witnessed(keys, p + [e])
  {
    var es := p + [e];
    forall i | 0 <= i < |keys|
      ensures EntryBefore(es, keys[i], |es|)
    {
      if i < |ks| {
        assert EntryBefore(p, ks[i], |p|);
        var k :| 0 <= k < |p| && p[k].supplier == ks[i];
        assert es[k] == p[k] && keys[i] == ks[i];
      } else {
        assert keys == ks + [e.supplier] && keys[i] == e.supplier;
        assert es[|p|].supplier == keys[i];
      }
    }
  }

  /** A witness in `p` is a witness in `p + [e]`. */
  lemma EntryBeforeExtend(p: seq<PriceEntry>, e: PriceEntry, s: string, n: nat)
    requires EntryBefore(p, s, n)
    ensures EntryBefore(p + [e], s, n)
  {
    var k :| 0 <= k < n && k < |p| && p[k].supplier == s;
    assert (p + [e])[k] == p[k];
  }

  /** `Ordered` when the new entry's supplier is already a key. */
  lemma OrderedOld(p: seq<PriceEntry>, e: PriceEntry, keys: seq<string>)
    requires Witnessed(keys, p) && Ordered(keys, p)
    ensures Ordered(keys, p + [e])
  {
    var es := p + [e];
    forall i, j, k | 0 <= i < j < |keys| && 0 <= k < |es| && es[k].supplier == keys[j]
      ensures EntryBefore(es, keys[i], k)
    {
      if k < |p| {
        assert p[k] == es[k];
        assert EntryBefore(p, keys[i], k);
        EntryBeforeExtend(p, e, keys[i], k);
      } else {
        assert EntryBefore(p, keys[j], |p|);
        var k0 :| 0 <= k0 < |p| && p[k0].supplier == keys[j];
        assert EntryBefore(p, keys[i], k0);
        EntryBeforeExtend(p, e, keys[i], k0);
      }
    }
  }

  /** `Ordered` when the new entry's supplier becomes the last key. */
  lemma OrderedNew(p: seq<PriceEntry>, e: PriceEntry, ks: seq<string>)
    requires Covers(ks, p) && Witnessed(ks, p) && Ordered(ks, p)
    requires e.supplier !in ks
    ensures Ordered(ks + [e.supplier], p + [e])
  {
    var es, keys := p + [e], ks + [e.supplier];
    OrderedOld(p, e, ks);
    forall i, j, k | 0 <= i < j < |keys| && 0 <= k < |es| && es[k].supplier == keys[j]
      ensures EntryBefore(es, keys[i], k)
    {
      assert keys[i] == ks[i];
      if j < |ks| {
        assert keys[j] == ks[j];
      } else {
        NewKeyLast(p, e, ks, i, k);
      }
    }
  }

  /** The first entry of a new supplier comes after an entry of every
      earlier key. */
  lemma NewKeyLast(p: seq<PriceEntry>, e: PriceEntry, ks: seq<string>, i: nat, k: nat)
    requires Covers(ks, p) && Witnessed(ks, p) && e.supplier !in ks
    requires i < |ks| && k <= |p| && (p + [e])[k].supplier == e.supplier
    ensures EntryBefore(p + [e], ks[i], k)
  {
    assert EntryBefore(p, ks[i], |p|);
    EntryBeforeExtend(p, e, ks[i], |p|);
  }

  // ---------------------------------------------------------------------
  // Averages

  /** The prices of a list of entries, in order. */
  function Prices(es: seq<PriceEntry>): (ps: seq<real>)
    ensures |ps| == |es| && forall i :: 0 <= i < |es| ==> ps[i] == es[i].price
  {
    seq(|es|, i requires 0 <= i < |es| => es[i].price)
  }

  /** The mean of a supplier's prices, for a non-empty group. */
  function Mean(g: seq<PriceEntry>): real
    requires g != []
  {
    SumY(Prices(g)) / (|g| as real)
  }

  /** One element of `averagePrices`. */
  datatype SupplierAverage = SupplierAverage(supplier: string, avgPrice: real)

  /** `averagePrices`: one mean per key of the grouping, in key order. The
      group of every key is that supplier's entries and is never empty, so
      every mean is defined. */
  function AveragePrices(es: seq<PriceEntry>): (r: seq<SupplierAverage>)
    ensures var g := GroupBySupplier(es);
      && |r| == |g.keys|
      && forall i :: 0 <= i < |r| ==>
           && r[i].supplier == g.keys[i]
           && OfSupplier(es, r[i].supplier) != []
           && r[i].avgPrice == Mean(OfSupplier(es, r[i].supplier))
  {
    var g := GroupBySupplier(es);
    GroupBySupplierPartition(es);
    seq(|g.keys|, i requires 0 <= i < |g.keys| =>
      SupplierAverage(g.keys[i], Mean(g.entriesOf[g.keys[i]])))
  }

  /** The mean times the number of prices is their sum. */
  lemma MeanTimesCount(g: seq<PriceEntry>)
    requires g != []
    ensures Mean(g) * (|g| as real) == SumY(Prices(g))
  {
    QuotientTimes(SumY(Prices(g)), |g| as real, Mean(g));
  }

  lemma QuotientTimes(a: real, b: real, q: real)
    requires b > 0.0 && q == a / b
    ensures q * b == a
  {
  }

  /** `averagePrices.find(ap => ap.supplier === s)?.avgPrice || 0`. */
  function FindAverage(avgs: seq<SupplierAverage>, s: string): real
  {
    if avgs == [] then 0.0
    else if avgs[0].supplier == s then avgs[0].avgPrice
    else FindAverage(avgs[1..], s)
  }

  /** `find` returns the first element with the key. */
  lemma {:induction false} FindAverageAt(avgs: seq<SupplierAverage>, s: string, i: nat)
    requires i < |avgs| && avgs[i].supplier == s
    requires forall j :: 0 <= j < i ==> avgs[j].supplier != s
    ensures FindAverage(avgs, s) == avgs[i].avgPrice
  {
    if i > 0 {
      assert avgs[0].supplier != s;
      FindAverageAt(avgs[1..], s, i - 1);
    }
  }

  /** A missing key reads as 0. */
  lemma {:induction false} FindAverageMissing(avgs: seq<SupplierAverage>, s: string)
    requires forall j :: 0 <= j < |avgs| ==> avgs[j].supplier != s
    ensures FindAverage(avgs, s) == 0.0
  {
    if avgs != [] {
      FindAverageMissing(avgs[1..], s);
    }
  }

  /** The mean looked up for an entry of the list is the mean of its own
      supplier's entries. */
  lemma {:induction false} AverageOfEntry(es: seq<PriceEntry>, e: PriceEntry)
    requires e in es
    ensures OfSupplier(es, e.supplier) != []
    ensures FindAverage(AveragePrices(es), e.supplier) == Mean(OfSupplier(es, e.supplier))
  {
    var g := GroupBySupplier(es);
    GroupBySupplierPartition(es);
    var k :| 0 <= k < |es| && es[k] == e;
    assert e.supplier in g.keys;
    var i :| 0 <= i < |g.keys| && g.keys[i] == e.supplier;
    FindAverageAt(AveragePrices(es), e.supplier, i);
  }

  // ---------------------------------------------------------------------
  // Alerts

  /** The filter test of `priceAlerts`: more than 20% below the mean. */
  predicate IsAlert(e: PriceEntry, avgs: seq<SupplierAverage>)
  {
    e.price < FindAverage(avgs, e.supplier) * 0.8
  }

  function AlertFilter(xs: seq<PriceEntry>, avgs: seq<SupplierAverage>): seq<PriceEntry>
  {
    if xs == [] then []
    else (if IsAlert(xs[0], avgs) then [xs[0]] else []) + AlertFilter(xs[1..], avgs)
  }

  /** `priceAlerts`: the entries that pass the test, in order, cut to 3. */
  function PriceAlerts(es: seq<PriceEntry>): (r: seq<PriceEntry>)
    ensures |r| <= 3
  {
    var c := AlertFilter(es, AveragePrices(es));
    c[..Min(3, |c|)]
  }

  /** The alert test without division: five times the price times the
      group size is below four times the group's price sum. */
  predicate Qualifies(es: seq<PriceEntry>, e: PriceEntry)
  {
    var g := OfSupplier(es, e.supplier);
    5.0 * e.price * |g| as real < 4.0 * SumY(Prices(g))
  }

  function Qualifying(xs: seq<PriceEntry>, es: seq<PriceEntry>): seq<PriceEntry>
  {
    if xs == [] then []
    else (if Qualifies(es, xs[0]) then [xs[0]] else []) + Qualifying(xs[1..], es)
  }

  /** For an entry of the list, the test against the looked-up mean is the
      division-free test against its own group. */
  lemma {:induction false} AlertTestMatchesReference(es: seq<PriceEntry>, e: PriceEntry)
    requires e in es
    ensures IsAlert(e, AveragePrices(es)) <==> Qualifies(es, e)
  {
    AverageOfEntry(es, e);
    BelowMean(es, e, FindAverage(AveragePrices(es), e.supplier));
  }

  /** Against the mean of its own group, the alert test is the
      division-free one. */
  lemma {:induction false} BelowMean(es: seq<PriceEntry>, e: PriceEntry, avg: real)
    requires OfSupplier(es, e.supplier) != [] && avg == Mean(OfSupplier(es, e.supplier))
    ensures e.price < avg * 0.8 <==> Qualifies(es, e)
  {
    var g := OfSupplier(es, e.supplier);
    AlertArith(e.price, SumY(Prices(g)), |g| as real, Mean(g), avg);
  }

  lemma AlertArith(p: real, sum: real, n: real, mean: real, avg: real)
    requires n > 0.0 && mean == sum / n && avg == mean
    ensures p < avg * 0.8 <==> 5.0 * p * n < 4.0 * sum
  {
    assert mean * n == sum;
    assert 5.0 * n * (avg * 0.8) == 4.0 * sum;
    if p < avg * 0.8 {
      assert 5.0 * n * p < 5.0 * n * (avg * 0.8);
    } else {
      assert 5.0 * n * p >= 5.0 * n * (avg * 0.8);
    }
  }

  lemma {:induction false} AlertFilterMatches(xs: seq<PriceEntry>, es: seq<PriceEntry>)
    requires forall i :: 0 <= i < |xs| ==> xs[i] in es
    ensures AlertFilter(xs, AveragePrices(es)) == Qualifying(xs, es)
  {
    if xs != [] {
      AlertTestMatchesReference(es, xs[0]);
      AlertFilterMatches(xs[1..], es);
    }
  }

  /** `a` can be obtained from `b` by deleting elements. */
  predicate IsSubsequence<T(==)>(a: seq<T>, b: seq<T>)
    decreases |b|
  {
    a == [] || (b != [] && ((a[0] == b[0] && IsSubsequence(a[1..], b[1..])) || IsSubsequence(a, b[1..])))
  }

  lemma {:induction false} QualifyingIsSubsequence(xs: seq<PriceEntry>, es: seq<PriceEntry>)
    ensures IsSubsequence(Qualifying(xs, es), xs)
    ensures forall i :: 0 <= i < |Qualifying(xs, es)| ==> Qualifies(es, Qualifying(xs, es)[i])
  {
    if xs != [] {
      QualifyingIsSubsequence(xs[1..], es);
      var q := Qualifying(xs, es);
      if Qualifies(es, xs[0]) {
        assert q == [xs[0]] + Qualifying(xs[1..], es);
        assert q[1..] == Qualifying(xs[1..], es);
      } else {
        assert q == Qualifying(xs[1..], es);
      }
    }
  }

  lemma {:induction false} PrefixIsSubsequence<T>(a: seq<T>, b: seq<T>, m: nat)
    requires IsSubsequence(a, b) && m <= |a|
    ensures IsSubsequence(a[..m], b)
    decreases |b|
  {
    if m > 0 {
      if a[0] == b[0] && IsSubsequence(a[1..], b[1..]) {
        PrefixIsSubsequence(a[1..], b[1..], m - 1);
        assert a[..m][1..] == a[1..][..m - 1];
      } else {
        PrefixIsSubsequence(a, b[1..], m);
      }
    }
  }

  /** The alerts are exactly the first min(3, k) of the k entries that pass
      the division-free test, in list order; so they are a subsequence of
      the entries, at most three, and each is more than 20% below its own
      supplier's mean. */
  lemma {:induction false} PriceAlertsSpec(es: seq<PriceEntry>)
    ensures var q := Qualifying(es, es);
      && PriceAlerts(es) == q[..Min(3, |q|)]
      && IsSubsequence(PriceAlerts(es), es)
      && forall i :: 0 <= i < |PriceAlerts(es)| ==> Qualifies(es, PriceAlerts(es)[i])
  {
    AlertFilterMatches(es, es);
    var q := Qualifying(es, es);
    QualifyingIsSubsequence(es, es);
    PrefixIsSubsequence(q, es, Min(3, |q|));
  }

  // ---------------------------------------------------------------------
  // The supplier analysis and the chart series

  /** One row of the supplier analysis panel. */
  datatype SupplierRow = SupplierRow(supplier: string, avgPrice: real, trend: Trend)

  /** The analysis panel: for each element of `averagePrices`, its mean and
      the label of the slope over all of that supplier's entries, in list
      order. */
  function SupplierAnalysis(es: seq<PriceEntry>): (rows: seq<SupplierRow>)
    ensures var avgs := AveragePrices(es);
      && |rows| == |avgs|
      && forall i :: 0 <= i < |rows| ==>
           && rows[i].supplier == avgs[i].supplier && rows[i].avgPrice == avgs[i].avgPrice
           && rows[i].trend == TrendLabel(PredictTrend(Prices(OfSupplier(es, rows[i].supplier))))
  {
    var g := GroupBySupplier(es);
    var avgs := AveragePrices(es);
    GroupBySupplierPartition(es);
    seq(|avgs|, i requires 0 <= i < |avgs| =>
      SupplierRow(avgs[i].supplier, avgs[i].avgPrice, TrendLabel(PredictTrend(Prices(g.entriesOf[avgs[i].supplier])))))
  }

  /** `data.slice(-10).map(entry => entry.price)`: the prices of the last
      ten entries of a group, or of all of them when there are fewer. */
  function ChartSeries(entries: seq<PriceEntry>): (ps: seq<real>)
    ensures |ps| == Min(10, |entries|)
    ensures forall i :: 0 <= i < |ps| ==> ps[i] == entries[|entries| - |ps| + i].price
  {
    Prices(entries)[|entries| - Min(10, |entries|)..]
  }

  /** The trend and the chart read different windows: for eleven prices, a
      lower one followed by ten equal ones, the ten the chart draws have
      slope 0 while the trend over the whole group is rising. */
  lemma TrendUsesWholeGroup()
    ensures var ys := [1.0] + seq(10, _ => 2.0);
      && TrendLabel(PredictTrend(ys)) == Rising
      && PredictTrend(ys[|ys| - 10..]) == 0.0
  {
    var ys := [1.0] + seq(10, _ => 2.0);
    assert forall i :: 1 <= i < |ys| ==> ys[i] == 2.0;
    ConstantTrend(ys[|ys| - 10..], 2.0);
    RisingTrend(ys);
  }

  // ---------------------------------------------------------------------
  // Order of the entries

  /** As written: the list reaches the dashboard newest first, so prices
      that rose over time (`chronological`, oldest first) are read in the
      opposite order and labelled falling. */
  lemma {:induction false} NewestFirstRisingShowsFalling(chronological: seq<real>)
    requires forall i, j :: 0 <= i < j < |chronological| ==> chronological[i] <= chronological[j]
    requires chronological != [] && chronological[0] < chronological[|chronological| - 1]
    ensures TrendLabel(PredictTrend(Reverse(chronological))) == Falling
  {
    RisingTrend(chronological);
    ReverseTrend(chronological);
  }

  /** The concrete case: prices 10, 12, 14 in the order they were entered
      arrive as 14, 12, 10 and are labelled falling. */
  lemma NewestFirstExample()
    ensures Reverse([10.0, 12.0, 14.0]) == [14.0, 12.0, 10.0]
    ensures TrendLabel(PredictTrend([14.0, 12.0, 10.0])) == Falling
  {
    var ys := [10.0, 12.0, 14.0];
    NewestFirstRisingShowsFalling(ys);
    assert Reverse(ys) == [14.0, 12.0, 10.0];
  }

  /** The trend of a newest-first group taken in time order. */
  function ChronologicalTrend(newestFirst: seq<real>): Trend
  {
    TrendLabel(PredictTrend(Reverse(newestFirst)))
  }

  /** In time order the label is that of the opposite slope, so prices that
      rose over time are labelled rising and prices that fell are labelled
      falling. */
  lemma {:induction false} ChronologicalTrendSpec(newestFirst: seq<real>)
    ensures ChronologicalTrend(newestFirst) == TrendLabel(-PredictTrend(newestFirst))
    ensures newestFirst != [] && newestFirst[0] > newestFirst[|newestFirst| - 1]
            && (forall i, j :: 0 <= i < j < |newestFirst| ==> newestFirst[i] >= newestFirst[j])
            ==> ChronologicalTrend(newestFirst) == Rising
    ensures newestFirst != [] && newestFirst[0] < newestFirst[|newestFirst| - 1]
            && (forall i, j :: 0 <= i < j < |newestFirst| ==> newestFirst[i] <= newestFirst[j])
            ==> ChronologicalTrend(newestFirst) == Falling
  {
    ReverseTrend(newestFirst);
    if newestFirst != [] && newestFirst[0] > newestFirst[|newestFirst| - 1]
       && forall i, j :: 0 <= i < j < |newestFirst| ==> newestFirst[i] >= newestFirst[j] {
      FallingTrend(newestFirst);
    }
    if newestFirst != [] && newestFirst[0] < newestFirst[|newestFirst| - 1]
       && forall i, j :: 0 <= i < j < |newestFirst| ==> newestFirst[i] <= newestFirst[j] {
      RisingTrend(newestFirst);
    }
  }
}
