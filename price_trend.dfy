/** `predictTrend` of src/components/PriceDashboard.tsx: the least-squares
    slope of the prices against their positions 0, 1, ..., n-1, and the
    label the analysis panel prints for it. Prices are reals; the
    floating-point rounding of the source is not modelled. */
module PriceTrend {

  /** `reduce((a, b) => a + b, 0)`: the sum of the prices, added from the
      first to the last. */
  function SumY(ys: seq<real>): real
  {
    if ys == [] then 0.0 else SumY(ys[..|ys| - 1]) + ys[|ys| - 1]
  }

  /** `sumX`: the positions 0 + 1 + ... + (n-1). */
  function SumX(n: nat): real
  {
    if n == 0 then 0.0 else SumX(n - 1) + ((n - 1) as real)
  }

  /** `k * y` for a position k, written as k-fold addition so that the
      recursive sums below stay linear; `TimesIsProduct` shows it is the
      product. */
  function Times(k: nat, y: real): real
  {
    if k == 0 then 0.0 else Times(k - 1, y) + y
  }

  /** `sumXX`: the squared positions 0² + 1² + ... + (n-1)². */
  function SumXX(n: nat): real
  {
    if n == 0 then 0.0 else SumXX(n - 1) + Times(n - 1, (n - 1) as real)
  }

  /** `sumXY`: each price times its position. */
  function SumXY(ys: seq<real>): real
  {
    if ys == [] then 0.0 else SumXY(ys[..|ys| - 1]) + Times(|ys| - 1, ys[|ys| - 1])
  }

  /** `n * sumXY - sumX * sumY`. */
  function Numerator(ys: seq<real>): real
  {
    (|ys| as real) * SumXY(ys) - SumX(|ys|) * SumY(ys)
  }

  /** `n * sumXX - sumX * sumX`. */
  function Denominator(n: nat): real
  {
    (n as real) * SumXX(n) - SumX(n) * SumX(n)
  }

  lemma {:induction false} TimesIsProduct(k: nat, y: real)
    ensures Times(k, y) == (k as real) * y
  {
    if k > 0 {
      TimesIsProduct(k - 1, y);
      ProductStep((k - 1) as real, y, Times(k - 1, y));
    }
  }

  lemma ProductStep(m: real, y: real, t: real)
    requires t == m * y
    ensures t + y == (m + 1.0) * y
  {
  }

  lemma {:induction false} TimesNegate(k: nat, y: real)
    ensures Times(k, -y) == -Times(k, y)
  {
    if k > 0 {
      TimesNegate(k - 1, y);
    }
  }

  /** `sumX` in closed form. */
  lemma {:induction false} SumXClosed(n: nat)
    ensures 2.0 * SumX(n) == (n as real) * ((n as real) - 1.0)
  {
    if n > 0 {
      SumXClosed(n - 1);
      SumXStep((n - 1) as real, SumX(n - 1));
    }
  }

  lemma SumXStep(m: real, sx: real)
    requires 2.0 * sx == m * (m - 1.0)
    ensures 2.0 * (sx + m) == (m + 1.0) * m
  {
  }

  /** `sumXX` in closed form. */
  lemma {:induction false} SumXXClosed(n: nat)
    ensures 6.0 * SumXX(n) == ((n as real) - 1.0) * (n as real) * (2.0 * (n as real) - 1.0)
  {
    if n > 0 {
      SumXXClosed(n - 1);
      TimesIsProduct(n - 1, (n - 1) as real);
      SumXXStep((n - 1) as real, SumXX(n - 1), Times(n - 1, (n - 1) as real));
    }
  }

  lemma SumXXStep(m: real, sxx: real, t: real)
    requires 6.0 * sxx == (m - 1.0) * m * (2.0 * m - 1.0) && t == m * m
    ensures 6.0 * (sxx + t) == m * (m + 1.0) * (2.0 * m + 1.0)
  {
    assert (m - 1.0) * m * (2.0 * m - 1.0) + 6.0 * m * m == m * ((m - 1.0) * (2.0 * m - 1.0) + 6.0 * m);
    assert (m - 1.0) * (2.0 * m - 1.0) + 6.0 * m == (m + 1.0) * (2.0 * m + 1.0);
  }

  /** For two or more prices the denominator of the slope is positive
      (it is n²(n²-1)/12), so the division is defined. */
  lemma {:induction false} DenominatorPositive(n: nat)
    requires n >= 2
    ensures Denominator(n) > 0.0
  {
    SumXClosed(n);
    SumXXClosed(n);
    DenominatorArith(n as real, SumX(n), SumXX(n));
  }

  lemma DenominatorArith(x: real, sx: real, sxx: real)
    requires x >= 2.0
    requires 2.0 * sx == x * (x - 1.0)
    requires 6.0 * sxx == (x - 1.0) * x * (2.0 * x - 1.0)
    ensures x * sxx - sx * sx > 0.0
  {
    assert 12.0 * (x * sxx) == 2.0 * x * ((x - 1.0) * x * (2.0 * x - 1.0));
    assert 12.0 * (sx * sx) == 3.0 * (x * (x - 1.0)) * (x * (x - 1.0));
    assert 12.0 * (x * sxx - sx * sx) == (x * x) * ((x - 1.0) * (x + 1.0));
    assert x * x > 0.0 && (x - 1.0) * (x + 1.0) > 0.0;
  }

  /** `predictTrend`: 0 for fewer than two prices, otherwise the
      least-squares slope of price against position 0, 1, ... */
  function PredictTrend(ys: seq<real>): (slope: real)
    ensures |ys| < 2 ==> slope == 0.0
    ensures |ys| >= 2 ==> slope * Denominator(|ys|) == Numerator(ys)
  {
    if |ys| < 2 then 0.0
    else
      DenominatorPositive(|ys|);
      Numerator(ys) / Denominator(|ys|)
  }

  /** The sign of the slope is the sign of the numerator. */
  lemma {:induction false} SlopeSign(ys: seq<real>)
    requires |ys| >= 2
    ensures PredictTrend(ys) > 0.0 <==> Numerator(ys) > 0.0
    ensures PredictTrend(ys) < 0.0 <==> Numerator(ys) < 0.0
    ensures PredictTrend(ys) == 0.0 <==> Numerator(ys) == 0.0
  {
    DenominatorPositive(|ys|);
    SignArith(PredictTrend(ys), Denominator(|ys|), Numerator(ys));
  }

  lemma SignArith(slope: real, den: real, num: real)
    requires den > 0.0 && slope * den == num
    ensures slope > 0.0 <==> num > 0.0
    ensures slope < 0.0 <==> num < 0.0
    ensures slope == 0.0 <==> num == 0.0
  {
    if slope > 0.0 {
      assert slope * den > 0.0;
    } else if slope < 0.0 {
      assert (-slope) * den > 0.0;
    }
  }

  // ---------------------------------------------------------------------
  // Constant prices

  /** The sums of n equal prices c: `sumY = n·c` and `sumXY = c·sumX`. */
  lemma {:induction false} ConstantSums(ys: seq<real>, c: real)
    requires forall i :: 0 <= i < |ys| ==> ys[i] == c
    ensures SumY(ys) == (|ys| as real) * c
    ensures SumXY(ys) == c * SumX(|ys|)
  {
    if ys != [] {
      var p := ys[..|ys| - 1];
      ConstantSums(p, c);
      TimesIsProduct(|p|, c);
      ConstantArith(c, |p| as real, SumX(|p|), SumY(p), SumXY(p), Times(|p|, c),
                    |ys| as real, SumX(|ys|), SumY(ys), SumXY(ys));
    } else {
      ZeroArith(c, SumY(ys), SumXY(ys), |ys| as real, SumX(|ys|));
    }
  }

  lemma ConstantArith(c: real, k: real, sx: real, sy: real, sxy: real, t: real,
                      n: real, sx': real, sy': real, sxy': real)
    requires sy == k * c && sxy == c * sx && t == k * c
    requires n == k + 1.0 && sx' == sx + k && sy' == sy + c && sxy' == sxy + t
    ensures sy' == n * c && sxy' == c * sx'
  {
  }

  lemma ZeroArith(c: real, sy: real, sxy: real, n: real, sx: real)
    requires sy == 0.0 && sxy == 0.0 && n == 0.0 && sx == 0.0
    ensures sy == n * c && sxy == c * sx
  {
  }

  /** Equal prices have numerator 0. */
  lemma {:induction false} ConstantNumerator(ys: seq<real>, c: real)
    requires forall i :: 0 <= i < |ys| ==> ys[i] == c
    ensures Numerator(ys) == 0.0
  {
    ConstantSums(ys, c);
    FlatArith(c, |ys| as real, SumX(|ys|), SumY(ys), SumXY(ys), Numerator(ys));
  }

  lemma FlatArith(c: real, n: real, sx: real, sy: real, sxy: real, num: real)
    requires sy == n * c && sxy == c * sx && num == n * sxy - sx * sy
    ensures num == 0.0
  {
    assert n * (c * sx) == sx * (n * c);
  }

  /** Constant prices are stable: the slope is 0. */
  lemma {:induction false} ConstantTrend(ys: seq<real>, c: real)
    requires forall i :: 0 <= i < |ys| ==> ys[i] == c
    ensures PredictTrend(ys) == 0.0
  {
    if |ys| >= 2 {
      ConstantNumerator(ys, c);
      SlopeSign(ys);
    }
  }

  // ---------------------------------------------------------------------
  // Increasing prices

  /** `Σ (m - i)·(y - ps[i])` over the positions i of ps: what appending y
      at position m adds to the numerator (for m = |ps|, see
      `NumeratorStep`). */
  function Gain(ps: seq<real>, m: nat, y: real): real
    requires |ps| <= m
  {
    if ps == [] then 0.0
    else Gain(ps[..|ps| - 1], m, y) + Times(m - (|ps| - 1), y - ps[|ps| - 1])
  }

  /** `Gain` in terms of the sums. */
  lemma {:induction false} GainClosed(ps: seq<real>, m: nat, y: real)
    requires |ps| <= m
    ensures Gain(ps, m, y) == y * ((m as real) * (|ps| as real) - SumX(|ps|)) - ((m as real) * SumY(ps) - SumXY(ps))
  {
    if ps != [] {
      var q, z := ps[..|ps| - 1], ps[|ps| - 1];
      GainClosed(q, m, y);
      TimesIsProduct(|q|, z);
      TimesIsProduct(m - |q|, y - z);
      GainArith(m as real, |q| as real, SumY(q), SumXY(q), SumX(|q|), Gain(q, m, y), z, y,
                Times(|q|, z), (m - |q|) as real, Times(m - |q|, y - z),
                |ps| as real, SumY(ps), SumXY(ps), SumX(|ps|), Gain(ps, m, y));
    }
  }

  lemma GainArith(m: real, k: real, sy: real, sxy: real, sx: real, g: real, z: real, y: real,
                  t: real, d: real, u: real,
                  n: real, sy': real, sxy': real, sx': real, g': real)
    requires g == y * (m * k - sx) - (m * sy - sxy)
    requires t == k * z && d == m - k && u == d * (y - z)
    requires n == k + 1.0 && sy' == sy + z && sxy' == sxy + t && sx' == sx + k && g' == g + u
    ensures g' == y * (m * n - sx') - (m * sy' - sxy')
  {
  }

  /** Every earlier price at most y: appending y adds no less than 0, and
      more than 0 once the first of them is below y. */
  lemma {:induction false} GainSign(ps: seq<real>, m: nat, y: real)
    requires |ps| <= m
    requires forall i :: 0 <= i < |ps| ==> ps[i] <= y
    ensures Gain(ps, m, y) >= 0.0
    ensures ps != [] && ps[0] < y ==> Gain(ps, m, y) > 0.0
  {
    if ps != [] {
      var q, z := ps[..|ps| - 1], ps[|ps| - 1];
      GainSign(q, m, y);
      TimesSign(m - |q|, y - z);
    }
  }

  lemma {:induction false} TimesSign(k: nat, y: real)
    requires y >= 0.0
    ensures Times(k, y) >= 0.0
    ensures k >= 1 && y > 0.0 ==> Times(k, y) > 0.0
  {
    if k > 0 {
      TimesSign(k - 1, y);
    }
  }

  /** Appending a price y to p adds `Gain(p, |p|, y)` to the numerator. */
  lemma {:induction false} NumeratorStep(ys: seq<real>)
    requires ys != []
    ensures var p := ys[..|ys| - 1];
      Numerator(ys) == Numerator(p) + Gain(p, |p|, ys[|ys| - 1])
  {
    var p, y := ys[..|ys| - 1], ys[|ys| - 1];
    GainClosed(p, |p|, y);
    TimesIsProduct(|p|, y);
    StepArith(|p| as real, SumX(|p|), SumY(p), SumXY(p), y, Times(|p|, y), Numerator(p), Gain(p, |p|, y),
              |ys| as real, SumX(|ys|), SumY(ys), SumXY(ys), Numerator(ys));
  }

  lemma StepArith(n: real, sx: real, sy: real, sxy: real, y: real, t: real, num: real, g: real,
                  n': real, sx': real, sy': real, sxy': real, num': real)
    requires t == n * y && g == y * (n * n - sx) - (n * sy - sxy)
    requires n' == n + 1.0 && sx' == sx + n && sy' == sy + y && sxy' == sxy + t
    requires num == n * sxy - sx * sy && num' == n' * sxy' - sx' * sy'
    ensures num' == num + g
  {
    assert n' * sxy' == n * sxy + sxy + n * n * y + n * y;
    assert sx' * sy' == sx * sy + sx * y + n * sy + n * y;
  }

  /** Prices that never fall have a non-negative numerator, positive once
      the last is above the first. */
  lemma {:induction false} RisingNumerator(ys: seq<real>)
    requires forall i, j :: 0 <= i < j < |ys| ==> ys[i] <= ys[j]
    ensures Numerator(ys) >= 0.0
    ensures ys != [] && ys[0] < ys[|ys| - 1] ==> Numerator(ys) > 0.0
  {
    if ys != [] {
      var p, y := ys[..|ys| - 1], ys[|ys| - 1];
      RisingNumerator(p);
      NumeratorStep(ys);
      GainSign(p, |p|, y);
    }
  }

  /** Two lists of the same length with opposite numerators have opposite
      slopes. */
  lemma {:induction false} OppositeTrend(ys: seq<real>, zs: seq<real>)
    requires |zs| == |ys| && Numerator(zs) == -Numerator(ys)
    ensures PredictTrend(zs) == -PredictTrend(ys)
  {
    if |ys| >= 2 {
      DenominatorPositive(|ys|);
      OppositeQuotient(PredictTrend(zs), PredictTrend(ys), Denominator(|zs|), Denominator(|ys|),
                       Numerator(zs), Numerator(ys));
    }
  }

  /** Two quotients of opposite numerators by the same positive number. */
  lemma OppositeQuotient(p: real, q: real, d': real, d: real, num': real, num: real)
    requires d > 0.0 && d' == d && num' == -num && p * d' == num' && q * d == num
    ensures p == -q
  {
    assert (p + q) * d == 0.0;
  }

  /** Prices that never fall and end above where they began give a
      positive slope; in particular strictly increasing prices do. */
  lemma {:induction false} RisingTrend(ys: seq<real>)
    requires forall i, j :: 0 <= i < j < |ys| ==> ys[i] <= ys[j]
    requires ys != [] && ys[0] < ys[|ys| - 1]
    ensures PredictTrend(ys) > 0.0
  {
    RisingNumerator(ys);
    SlopeSign(ys);
  }

  // ---------------------------------------------------------------------
  // Falling prices

  /** Every price negated. */
  function Negate(ys: seq<real>): (r: seq<real>)
    ensures |r| == |ys| && forall i :: 0 <= i < |ys| ==> r[i] == -ys[i]
  {
    seq(|ys|, i requires 0 <= i < |ys| => -ys[i])
  }

  lemma {:induction false} NegateSums(ys: seq<real>)
    ensures SumY(Negate(ys)) == -SumY(ys) && SumXY(Negate(ys)) == -SumXY(ys)
  {
    if ys != [] {
      assert Negate(ys)[..|ys| - 1] == Negate(ys[..|ys| - 1]);
      NegateSums(ys[..|ys| - 1]);
      TimesNegate(|ys| - 1, ys[|ys| - 1]);
    }
  }

  /** Negating every price negates the numerator. */
  lemma {:induction false} NegateNumerator(ys: seq<real>)
    ensures Numerator(Negate(ys)) == -Numerator(ys)
  {
    var zs := Negate(ys);
    NegateSums(ys);
    NegateArith(|ys| as real, SumX(|ys|), SumY(ys), SumXY(ys), Numerator(ys),
                |zs| as real, SumX(|zs|), SumY(zs), SumXY(zs), Numerator(zs));
  }

  lemma NegateArith(n: real, sx: real, sy: real, sxy: real, num: real,
                    n': real, sx': real, sy': real, sxy': real, num': real)
    requires n' == n && sx' == sx && sy' == -sy && sxy' == -sxy
    requires num == n * sxy - sx * sy && num' == n' * sxy' - sx' * sy'
    ensures num' == -num
  {
  }

  /** Prices that never rise and end below where they began give a
      negative slope. */
  lemma {:induction false} FallingTrend(ys: seq<real>)
    requires forall i, j :: 0 <= i < j < |ys| ==> ys[i] >= ys[j]
    requires ys != [] && ys[0] > ys[|ys| - 1]
    ensures PredictTrend(ys) < 0.0
  {
    RisingTrend(Negate(ys));
    NegateNumerator(ys);
    OppositeTrend(ys, Negate(ys));
  }

  // ---------------------------------------------------------------------
  // Reading the prices in the opposite order

  /** The list in the opposite order. */
  function Reverse(ys: seq<real>): (r: seq<real>)
    ensures |r| == |ys| && forall i :: 0 <= i < |ys| ==> r[i] == ys[|ys| - 1 - i]
  {
    if ys == [] then [] else [ys[|ys| - 1]] + Reverse(ys[..|ys| - 1])
  }

  /** Sums of a list with one price put in front: every other price moves
      one position up. */
  lemma {:induction false} SumsCons(y: real, zs: seq<real>)
    ensures SumY([y] + zs) == y + SumY(zs)
    ensures SumXY([y] + zs) == SumXY(zs) + SumY(zs)
  {
    var ws := [y] + zs;
    if zs != [] {
      var n := |zs|;
      assert ws[..|ws| - 1] == [y] + zs[..n - 1];
      assert ws[|ws| - 1] == zs[n - 1];
      SumsCons(y, zs[..n - 1]);
    } else {
      assert ws[..0] == [];
    }
  }

  /** Read backwards, the price at position i moves to position n-1-i, so
      the two weighted sums and the plain sum add up to n times the sum. */
  lemma {:induction false} ReverseSums(ys: seq<real>)
    ensures SumY(Reverse(ys)) == SumY(ys)
    ensures SumXY(Reverse(ys)) + SumXY(ys) + SumY(ys) == Times(|ys|, SumY(ys))
  {
    if ys != [] {
      var zs, y := ys[..|ys| - 1], ys[|ys| - 1];
      var rs := Reverse(zs);
      assert Reverse(ys) == [y] + rs;
      ReverseSums(zs);
      SumsCons(y, rs);
      TimesAdd(|zs|, SumY(zs), y, SumY(ys));
      assert Times(|ys|, SumY(ys)) == Times(|zs|, SumY(ys)) + SumY(ys);
    }
  }

  lemma {:induction false} TimesAdd(k: nat, a: real, b: real, c: real)
    requires c == a + b
    ensures Times(k, c) == Times(k, a) + Times(k, b)
  {
    if k > 0 {
      TimesAdd(k - 1, a, b, c);
    }
  }

  /** Reading the prices in the opposite order negates the numerator. */
  lemma {:induction false} ReverseNumerator(ys: seq<real>)
    ensures Numerator(Reverse(ys)) == -Numerator(ys)
  {
    ReverseSums(ys);
    MirrorNumerator(ys, Reverse(ys));
  }

  /** The numerator of a list whose sums are those of `ys` read backwards. */
  lemma {:induction false} MirrorNumerator(ys: seq<real>, zs: seq<real>)
    requires |zs| == |ys| && SumY(zs) == SumY(ys)
    requires SumXY(zs) + SumXY(ys) + SumY(ys) == Times(|ys|, SumY(ys))
    ensures Numerator(zs) == -Numerator(ys)
  {
    SumXClosed(|ys|);
    TimesIsProduct(|ys|, SumY(ys));
    ReverseNumeratorArith(|ys| as real, SumX(|ys|), SumY(ys), SumXY(ys), SumXY(zs), Times(|ys|, SumY(ys)));
  }

  lemma ReverseNumeratorArith(n: real, sx: real, sy: real, sxy: real, rxy: real, t: real)
    requires 2.0 * sx == n * (n - 1.0) && t == n * sy && rxy + sxy + sy == t
    ensures n * rxy - sx * sy == -(n * sxy - sx * sy)
  {
    assert n * rxy == n * (t - sy) - n * sxy;
    assert n * (t - sy) == n * (n - 1.0) * sy;
  }

  /** Reading the prices in the opposite order negates the slope. */
  lemma {:induction false} ReverseTrend(ys: seq<real>)
    ensures PredictTrend(Reverse(ys)) == -PredictTrend(ys)
  {
    ReverseNumerator(ys);
    OppositeTrend(ys, Reverse(ys));
  }

  // ---------------------------------------------------------------------
  // The label

  /** The three labels of the analysis panel. */
  datatype Trend = Rising | Falling | Stable

  /** `trend > 0 ? 'Rising' : trend < 0 ? 'Falling' : 'Stable'`. */
  function TrendLabel(slope: real): (t: Trend)
    ensures t == Rising <==> slope > 0.0
    ensures t == Falling <==> slope < 0.0
    ensures t == Stable <==> slope == 0.0
  {
    if slope > 0.0 then Rising else if slope < 0.0 then Falling else Stable
  }

  /** The labels of the trend rule on the shapes of price history: fewer
      than two prices or equal prices are stable, prices that never fall
      and end higher are rising, prices that never rise and end lower are
      falling. */
  lemma {:induction false} TrendLabels(ys: seq<real>)
    ensures |ys| < 2 ==> TrendLabel(PredictTrend(ys)) == Stable
    ensures (forall i, j :: 0 <= i < j < |ys| ==> ys[i] == ys[j]) ==> TrendLabel(PredictTrend(ys)) == Stable
    ensures ys != [] && ys[0] < ys[|ys| - 1] && (forall i, j :: 0 <= i < j < |ys| ==> ys[i] <= ys[j])
            ==> TrendLabel(PredictTrend(ys)) == Rising
    ensures ys != [] && ys[0] > ys[|ys| - 1] && (forall i, j :: 0 <= i < j < |ys| ==> ys[i] >= ys[j])
            ==> TrendLabel(PredictTrend(ys)) == Falling
  {
    if |ys| >= 2 && forall i, j :: 0 <= i < j < |ys| ==> ys[i] == ys[j] {
      forall i | 0 <= i < |ys|
        ensures ys[i] == ys[0]
      {
        if i > 0 {
          assert ys[0] == ys[i];
        }
      }
      ConstantTrend(ys, ys[0]);
    }
    if ys != [] && ys[0] < ys[|ys| - 1] && forall i, j :: 0 <= i < j < |ys| ==> ys[i] <= ys[j] {
      RisingTrend(ys);
    }
    if ys != [] && ys[0] > ys[|ys| - 1] && forall i, j :: 0 <= i < j < |ys| ==> ys[i] >= ys[j] {
      FallingTrend(ys);
    }
  }

  /** Prices 10, 12, 14 rise by 2 per entry and are labelled rising. */
  lemma RisingExample()
    ensures PredictTrend([10.0, 12.0, 14.0]) == 2.0
    ensures TrendLabel(PredictTrend([10.0, 12.0, 14.0])) == Rising
  {
    var ys := [10.0, 12.0, 14.0];
    assert ys[..2] == [10.0, 12.0] && ys[..2][..1] == [10.0] && ys[..2][..1][..0] == [];
    assert SumY([10.0]) == 10.0 && SumXY([10.0]) == 0.0;
    assert SumY([10.0, 12.0]) == 22.0 && SumXY([10.0, 12.0]) == 12.0;
    assert SumY(ys) == 36.0 && SumXY(ys) == 40.0;
    assert Times(1, 1.0) == 1.0 && Times(2, 2.0) == 4.0;
    assert SumX(3) == 3.0 && SumXX(3) == 5.0;
    assert Numerator(ys) == 12.0 && Denominator(3) == 6.0;
  }
}
