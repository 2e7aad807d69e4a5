/**
 * The numerics of processing one calibration run, over exact reals: ADC-to-volt conversion,
 * ranges, full-scale output (FSO), span, resolution, per-weight-group precision and the
 * coefficient of determination of the fitted curve. NumPy's NaN is `None`. The square root
 * inside the standard deviation, the logarithm and the least-squares fit are parameters.
 */
module Statistics {
  import opened Wrappers

  // ---------------------------------------------------------------------------------------
  // Rounding
  // ---------------------------------------------------------------------------------------

  /** `round(x)` in NumPy and Python: the nearest integer, a tie going to the even one. */
  function RoundHalfEven(x: real): (r: int)
    ensures x - 0.5 <= r as real <= x + 0.5
    ensures r as real - x == 0.5 || x - r as real == 0.5 ==> r % 2 == 0
  {
    var f := x.Floor;
    var frac := x - f as real;
    if frac < 0.5 then f
    else if frac > 0.5 then f + 1
    else if f % 2 == 0 then f
    else f + 1
  }

  /** Rounding never reverses the order of two values. */
  lemma RoundHalfEvenMonotone(x: real, y: real)
    requires x <= y
    ensures RoundHalfEven(x) <= RoundHalfEven(y)
  {
    var fx, fy := x.Floor, y.Floor;
    if fx == fy {
      assert x - fx as real <= y - fy as real;
    }
  }

  /** Rounding an integer gives it back. */
  lemma RoundHalfEvenOfInteger(n: int)
    ensures RoundHalfEven(n as real) == n
  {
    assert (n as real).Floor == n;
  }

  /**
   * `round(x, d)`: `x` rounded half-to-even at the `d`-th decimal place, where `unit` is
   * 10 to the `d`; every use passes `unit` as a literal.
   */
  function RoundTo(x: real, unit: real): real
    requires unit > 0.0
  {
    RoundHalfEven(x * unit) as real / unit
  }

  /** Rounding keeps the order of its arguments. */
  lemma RoundToMonotone(x: real, y: real, unit: real)
    requires unit > 0.0 && x <= y
    ensures RoundTo(x, unit) <= RoundTo(y, unit)
  {
    var xs, ys := ScaleMonotone(x, y, unit);
    RoundHalfEvenMonotone(xs, ys);
    UnscaleMonotone(RoundHalfEven(xs) as real, RoundHalfEven(ys) as real, unit);
  }

  /** Rounding keeps a non-negative value non-negative. */
  lemma RoundToNonNegative(x: real, unit: real)
    requires unit > 0.0 && x >= 0.0
    ensures RoundTo(x, unit) >= 0.0
  {
    RoundHalfEvenOfInteger(0);
    RoundToMonotone(0.0, x, unit);
    assert RoundTo(0.0, unit) == 0.0 / unit == 0.0;
  }

  lemma ScaleMonotone(x: real, y: real, unit: real) returns (xs: real, ys: real)
    requires unit > 0.0 && x <= y
    ensures xs == x * unit && ys == y * unit && xs <= ys
  {
    xs, ys := x * unit, y * unit;
    assert ys - xs == (y - x) * unit;
  }

  lemma UnscaleMonotone(a: real, b: real, unit: real)
    requires unit > 0.0 && a <= b
    ensures a / unit <= b / unit
  {
    assert b / unit - a / unit == (b - a) / unit;
  }

  // ---------------------------------------------------------------------------------------
  // Voltage conversion
  // ---------------------------------------------------------------------------------------

  /** A 10-bit ADC reading against a 3.3 V reference, in volts to three decimals. */
  function Voltage(lectura: real): real
  {
    RoundTo(lectura * 3.3 / 1023.0, 1000.0)
  }

  /** The ends of the ADC scale map to the ends of the voltage scale. */
  lemma VoltageAtScaleEnds()
    ensures Voltage(0.0) == 0.0
    ensures Voltage(1023.0) == 3.3
  {
    RoundHalfEvenOfInteger(0);
    RoundHalfEvenOfInteger(3300);
  }

  /**
   * The conversion is non-decreasing in the reading. No range check is made: a reading below
   * 0 or above 1023 is converted by the same formula.
   */
  lemma VoltageMonotone(l1: real, l2: real)
    requires l1 <= l2
    ensures Voltage(l1) <= Voltage(l2)
  {
    RoundHalfEvenMonotone(l1 * 3.3 / 1023.0 * 1000.0, l2 * 3.3 / 1023.0 * 1000.0);
  }

  /** Readings 100 and 102 land on 0.323 V and 0.329 V, readings 200 and 198 on 0.645 V and 0.639 V. */
  lemma VoltageSamples()
    ensures Voltage(100.0) == 0.323 && Voltage(102.0) == 0.329
    ensures Voltage(200.0) == 0.645 && Voltage(198.0) == 0.639
  {
  }

  // ---------------------------------------------------------------------------------------
  // Ranges
  // ---------------------------------------------------------------------------------------

  /** `Series.max()` of a column with at least one value. */
  function Max(s: seq<real>): (m: real)
    requires s != []
    ensures m in s
    ensures forall i :: 0 <= i < |s| ==> s[i] <= m
  {
    if |s| == 1 then s[0]
    else
      var m := Max(s[..|s| - 1]);
      if s[|s| - 1] > m then s[|s| - 1] else m
  }

  /** `Series.min()` of a column with at least one value. */
  function Min(s: seq<real>): (m: real)
    requires s != []
    ensures m in s
    ensures forall i :: 0 <= i < |s| ==> m <= s[i]
  {
    if |s| == 1 then s[0]
    else
      var m := Min(s[..|s| - 1]);
      if s[|s| - 1] < m then s[|s| - 1] else m
  }

  /** `max - min`: the FSO of the voltage column, the span of the weight column. */
  function Range(s: seq<real>): real
    requires s != []
  {
    Max(s) - Min(s)
  }

  /** A range is never negative, and it is zero exactly when every value is the same. */
  lemma RangeSpec(s: seq<real>)
    requires s != []
    ensures Range(s) >= 0.0
    ensures Range(s) == 0.0 <==> forall i, j :: 0 <= i < |s| && 0 <= j < |s| ==> s[i] == s[j]
  {
    if Range(s) == 0.0 {
      forall i, j | 0 <= i < |s| && 0 <= j < |s|
        ensures s[i] == s[j]
      {
        assert Min(s) <= s[i] <= Max(s) && Min(s) <= s[j] <= Max(s);
      }
    } else {
      var a :| 0 <= a < |s| && s[a] == Max(s);
      var b :| 0 <= b < |s| && s[b] == Min(s);
      assert s[a] != s[b];
    }
  }

  // ---------------------------------------------------------------------------------------
  // Resolution
  // ---------------------------------------------------------------------------------------

  /** `(fso / span).round(6) if span else NaN`: volts per gram. */
  function Resolution(fso: real, span: real): Option<real>
  {
    if span == 0.0 then None else Some(RoundTo(fso / span, 1000000.0))
  }

  /**
   * For a run's columns, the resolution is undefined exactly when every sample was taken at
   * the same weight, and is otherwise a non-negative number of volts per gram.
   */
  lemma ResolutionOfRun(weights: seq<real>, volts: seq<real>)
    requires weights != [] && volts != []
    ensures Resolution(Range(volts), Range(weights)).None? <==>
      forall i, j :: 0 <= i < |weights| && 0 <= j < |weights| ==> weights[i] == weights[j]
    ensures Resolution(Range(volts), Range(weights)).Some? ==>
      Resolution(Range(volts), Range(weights)).value >= 0.0
  {
    RangeSpec(weights);
    RangeSpec(volts);
    if Range(weights) != 0.0 {
      assert Range(volts) / Range(weights) >= 0.0;
      RoundHalfEvenOfInteger(0);
      RoundHalfEvenMonotone(0.0, Range(volts) / Range(weights) * 1000000.0);
    }
  }

  // ---------------------------------------------------------------------------------------
  // Sums of squares
  // ---------------------------------------------------------------------------------------

  function Sum(s: seq<real>): real
  {
    if s == [] then 0.0 else Sum(s[..|s| - 1]) + s[|s| - 1]
  }

  /** `np.mean`. */
  function Mean(s: seq<real>): real
    requires s != []
  {
    Sum(s) / |s| as real
  }

  /** The sequence holding `v` `n` times. */
  function Constant(n: nat, v: real): (r: seq<real>)
    ensures |r| == n && forall i :: 0 <= i < n ==> r[i] == v
  {
    seq(n, _ => v)
  }

  function Square(d: real): (r: real)
    ensures r >= 0.0
    ensures r == 0.0 <==> d == 0.0
  {
    var s := d * d;
    SquareSign(d, s);
    s
  }

  lemma SquareSign(d: real, s: real)
    requires s == d * d
    ensures s >= 0.0
    ensures s == 0.0 <==> d == 0.0
  {
    if d > 0.0 {
      ProductPositive(d, d, s);
    } else if d < 0.0 {
      ProductPositive(-d, -d, s);
    }
  }

  lemma ProductPositive(x: real, y: real, p: real)
    requires x > 0.0 && y > 0.0 && p == x * y
    ensures p > 0.0
  {
  }

  /** `np.sum((a - b) ** 2)`: the squared distance between two columns. */
  function SqDist(a: seq<real>, b: seq<real>): real
    requires |a| == |b|
  {
    if a == [] then 0.0
    else
      SqDist(a[..|a| - 1], b[..|b| - 1]) + Square(a[|a| - 1] - b[|b| - 1])
  }

  /** A squared distance is never negative, and it is zero exactly when the columns agree. */
  lemma {:induction false} SqDistZero(a: seq<real>, b: seq<real>)
    requires |a| == |b|
    ensures SqDist(a, b) >= 0.0
    ensures SqDist(a, b) == 0.0 <==> a == b
  {
    if a != [] {
      var n := |a| - 1;
      SqDistZero(a[..n], b[..n]);
      assert a == a[..n] + [a[n]] && b == b[..n] + [b[n]];
    }
  }

  /** The sum of `n` copies of `v`. */
  lemma {:induction false} SumConstant(n: nat, v: real)
    ensures Sum(Constant(n, v)) == n as real * v
  {
    if n > 0 {
      SumConstant(n - 1, v);
      assert Constant(n, v)[..n - 1] == Constant(n - 1, v);
    }
  }

  /** A column whose values are all the same is equal to its own mean everywhere. */
  lemma MeanOfConstant(s: seq<real>)
    requires s != []
    requires forall i :: 0 <= i < |s| ==> s[i] == s[0]
    ensures Mean(s) == s[0]
  {
    assert s == Constant(|s|, s[0]);
    SumConstant(|s|, s[0]);
  }

  // ---------------------------------------------------------------------------------------
  // Precision
  // ---------------------------------------------------------------------------------------

  /**
   * `Series.std(ddof=1)`: the square root of the sum of squared deviations from the mean over
   * `n - 1`; undefined for a group of one sample. The square root is a parameter.
   */
  function SampleStd(sqrt: real -> real, vs: seq<real>): Option<real>
  {
    if |vs| < 2 then None
    else Some(sqrt(SqDist(vs, Constant(|vs|, Mean(vs))) / (|vs| - 1) as real))
  }

  /** `(sigma / fso * 100).round(2) if fso else NaN`: one group's precision in percent of FSO. */
  function GroupPrecision(fso: real, sigma: Option<real>): Option<real>
  {
    if fso == 0.0 || sigma.None? then None else Some(RoundTo(sigma.value / fso * 100.0, 100.0))
  }

  /**
   * `np.nanmax`: the largest defined value, undefined when there is none. (NumPy raises an
   * error on an empty list; callers rule that case out.)
   */
  function NanMax(xs: seq<Option<real>>): (r: Option<real>)
    ensures r.None? <==> forall i :: 0 <= i < |xs| ==> xs[i].None?
    ensures r.Some? ==> r in xs
    ensures r.Some? ==> forall i :: 0 <= i < |xs| && xs[i].Some? ==> xs[i].value <= r.value
  {
    if xs == [] then None
    else
      var m := NanMax(xs[..|xs| - 1]);
      var x := xs[|xs| - 1];
      if x.None? then m
      else if m.None? || x.value > m.value then x
      else m
  }

  // ---------------------------------------------------------------------------------------
  // Weight groups
  // ---------------------------------------------------------------------------------------

  predicate Increasing(s: seq<real>)
  {
    forall i :: 0 < i < |s| ==> s[i - 1] < s[i]
  }

  function InsertKey(x: real, s: seq<real>): (r: seq<real>)
    requires Increasing(s)
    ensures Increasing(r)
    ensures forall w :: w in r <==> w == x || w in s
    ensures r != [] && (r[0] == x || (s != [] && r[0] == s[0]))
  {
    if s == [] then [x]
    else if x < s[0] then [x] + s
    else if x == s[0] then s
    else
      assert s == [s[0]] + s[1..];
      [s[0]] + InsertKey(x, s[1..])
  }

  /** The keys of `df.groupby('Peso_g')`: each weight once, in ascending order. */
  function Keys(ps: seq<real>): (r: seq<real>)
    ensures Increasing(r)
    ensures forall w :: w in r <==> w in ps
  {
    if ps == [] then []
    else
      assert ps == ps[..|ps| - 1] + [ps[|ps| - 1]];
      InsertKey(ps[|ps| - 1], Keys(ps[..|ps| - 1]))
  }

  /** The voltages of the rows weighed at `w`, in row order: one group of the groupby. */
  function Group(ps: seq<real>, vs: seq<real>, w: real): (r: seq<real>)
    requires |ps| == |vs|
    ensures |r| == multiset(ps)[w]
  {
    if ps == [] then []
    else
      var n := |ps| - 1;
      assert ps == ps[..n] + [ps[n]];
      Group(ps[..n], vs[..n], w) + if ps[n] == w then [vs[n]] else []
  }

  /** The precision of every weight group, in the order `groupby` yields them. */
  function GroupPrecisions(sqrt: real -> real, ps: seq<real>, vs: seq<real>, fso: real): (r: seq<Option<real>>)
    requires |ps| == |vs|
    ensures |r| == |Keys(ps)|
  {
    var keys := Keys(ps);
    seq(|keys|, k requires 0 <= k < |keys| => GroupPrecision(fso, SampleStd(sqrt, Group(ps, vs, keys[k]))))
  }

  /**
   * The run's precision, the worst group's, is undefined exactly when the FSO is zero or no
   * weight was sampled twice; otherwise it is the precision of some group and at least that
   * of every group.
   */
  lemma PrecisionOfRun(sqrt: real -> real, ps: seq<real>, vs: seq<real>, fso: real)
    requires |ps| == |vs|
    ensures NanMax(GroupPrecisions(sqrt, ps, vs, fso)).None? <==>
      fso == 0.0 || forall w :: w in ps ==> multiset(ps)[w] < 2
    ensures var p := NanMax(GroupPrecisions(sqrt, ps, vs, fso));
      p.Some? ==>
        (exists w :: w in ps && GroupPrecision(fso, SampleStd(sqrt, Group(ps, vs, w))) == p) &&
        forall w :: w in ps && GroupPrecision(fso, SampleStd(sqrt, Group(ps, vs, w))).Some? ==>
          GroupPrecision(fso, SampleStd(sqrt, Group(ps, vs, w))).value <= p.value
  {
    var keys := Keys(ps);
    var gp := GroupPrecisions(sqrt, ps, vs, fso);
    var p := NanMax(gp);
    forall w | w in ps
      ensures GroupPrecision(fso, SampleStd(sqrt, Group(ps, vs, w))) in gp
    {
      var k :| 0 <= k < |keys| && keys[k] == w;
      assert gp[k] == GroupPrecision(fso, SampleStd(sqrt, Group(ps, vs, w)));
    }
    if p.Some? {
      var k :| 0 <= k < |gp| && gp[k] == p;
      assert keys[k] in ps;
    } else if fso != 0.0 {
      forall w | w in ps
        ensures multiset(ps)[w] < 2
      {
        var k :| 0 <= k < |keys| && keys[k] == w;
        assert gp[k].None?;
      }
    }
  }

  // ---------------------------------------------------------------------------------------
  // Coefficient of determination
  // ---------------------------------------------------------------------------------------

  /** The coefficients of `V = a·x² + b·x + c`, highest power first as `np.polyfit` returns them. */
  datatype Coeffs = Coeffs(a: real, b: real, c: real)

  /** `np.polyval(coeffs, xs)`. */
  function Predict(k: Coeffs, xs: seq<real>): (r: seq<real>)
    ensures |r| == |xs|
  {
    seq(|xs|, i requires 0 <= i < |xs| => k.a * xs[i] * xs[i] + k.b * xs[i] + k.c)
  }

  /** `np.sum((y - np.mean(y)) ** 2)`: the total sum of squares. */
  function SsTot(ys: seq<real>): real
    requires ys != []
  {
    SqDist(ys, Constant(|ys|, Mean(ys)))
  }

  /** `(1 - ssRes / ssTot).round(4) if ssTot else NaN`. */
  function RSquared(ssRes: real, ssTot: real): Option<real>
  {
    if ssTot == 0.0 then None else Some(RoundTo(1.0 - ssRes / ssTot, 10000.0))
  }

  /** `1 - q` rounded to four decimals is at most 1, and at least 0 when `q` is at most 1. */
  lemma OneMinusRounded(q: real)
    requires q >= 0.0
    ensures RoundTo(1.0 - q, 10000.0) <= 1.0
    ensures q <= 1.0 ==> RoundTo(1.0 - q, 10000.0) >= 0.0
  {
    RoundHalfEvenMonotone((1.0 - q) * 10000.0, 10000.0);
    RoundHalfEvenOfInteger(10000);
    if q <= 1.0 {
      RoundHalfEvenOfInteger(0);
      RoundHalfEvenMonotone(0.0, (1.0 - q) * 10000.0);
    }
  }

  /**
   * Once defined, R² is at most 1; it is at least 0 when the residual sum of squares does not
   * exceed the total one.
   */
  lemma RSquaredBounds(ssRes: real, ssTot: real)
    requires ssRes >= 0.0 && ssTot >= 0.0
    ensures RSquared(ssRes, ssTot).Some? ==> RSquared(ssRes, ssTot).value <= 1.0
    ensures RSquared(ssRes, ssTot).Some? && ssRes <= ssTot ==> RSquared(ssRes, ssTot).value >= 0.0
  {
    if ssTot != 0.0 {
      var q := ssRes / ssTot;
      assert q >= 0.0;
      assert ssRes <= ssTot ==> q <= 1.0;
      OneMinusRounded(q);
    }
  }

  /**
   * R² of a fit is undefined exactly when every voltage equals the mean voltage. When it is
   * defined it is at most 1, and it is at least 0 when the fit is no worse than the constant
   * mean, as a least-squares fit always is.
   */
  lemma RSquaredOfFit(k: Coeffs, xs: seq<real>, ys: seq<real>)
    requires |xs| == |ys| && ys != []
    ensures RSquared(SqDist(ys, Predict(k, xs)), SsTot(ys)).None? <==>
      forall i :: 0 <= i < |ys| ==> ys[i] == Mean(ys)
    ensures var r := RSquared(SqDist(ys, Predict(k, xs)), SsTot(ys));
      r.Some? ==> r.value <= 1.0 && (SqDist(ys, Predict(k, xs)) <= SsTot(ys) ==> r.value >= 0.0)
  {
    var m := Constant(|ys|, Mean(ys));
    SqDistZero(ys, m);
    SqDistZero(ys, Predict(k, xs));
    RSquaredBounds(SqDist(ys, Predict(k, xs)), SqDist(ys, m));
    if SqDist(ys, m) == 0.0 {
      assert ys == m;
    }
  }

  /**
   * A run whose voltages are all the same has zero FSO, so every group's precision, the run's
   * precision and R² are all undefined.
   */
  lemma FlatRun(sqrt: real -> real, ps: seq<real>, vs: seq<real>, k: Coeffs, xs: seq<real>)
    requires |ps| == |vs| == |xs| && vs != []
    requires Range(vs) == 0.0
    ensures NanMax(GroupPrecisions(sqrt, ps, vs, Range(vs))).None?
    ensures RSquared(SqDist(vs, Predict(k, xs)), SsTot(vs)).None?
  {
    PrecisionOfRun(sqrt, ps, vs, Range(vs));
    RangeSpec(vs);
    MeanOfConstant(vs);
    RSquaredOfFit(k, xs, vs);
  }
}
