/**
 * The min-max scaler of `build_lstm_model` (main.py:80-81):
 * `MinMaxScaler(feature_range=(0, 1)).fit_transform` over the whole closing-price
 * series, on exact reals. As in scikit-learn, a zero data range is replaced by 1,
 * so a constant series scales to 0 everywhere and the inverse still recovers it.
 */
module Scaling {

  /** The fitted state: the smallest and the largest value seen by `fit`. */
  datatype MinMaxScaler = MinMaxScaler(dataMin: real, dataMax: real)

  /** Smallest element of a non-empty series. */
  function SeqMin(s: seq<real>): (m: real)
    requires |s| > 0
    ensures m in s
    ensures forall i :: 0 <= i < |s| ==> m <= s[i]
  {
    if |s| == 1 then s[0]
    else
      var rest := SeqMin(s[1..]);
      assert forall i :: 1 <= i < |s| ==> s[i] == s[1..][i - 1];
      if s[0] <= rest then s[0] else rest
  }

  /** Largest element of a non-empty series. */
  function SeqMax(s: seq<real>): (m: real)
    requires |s| > 0
    ensures m in s
    ensures forall i :: 0 <= i < |s| ==> s[i] <= m
  {
    if |s| == 1 then s[0]
    else
      var rest := SeqMax(s[1..]);
      assert forall i :: 1 <= i < |s| ==> s[i] == s[1..][i - 1];
      if rest <= s[0] then s[0] else rest
  }

  /** `fit`: record the minimum and the maximum of the series. */
  function Fit(s: seq<real>): (sc: MinMaxScaler)
    requires |s| > 0
    ensures sc.dataMin in s && sc.dataMax in s
    ensures forall i :: 0 <= i < |s| ==> sc.dataMin <= s[i] <= sc.dataMax
  {
    MinMaxScaler(SeqMin(s), SeqMax(s))
  }

  /** The divisor: the data range, or 1 where that range is zero. */
  function Range(sc: MinMaxScaler): (r: real)
    ensures r > 0.0
  {
    if sc.dataMax > sc.dataMin then sc.dataMax - sc.dataMin else 1.0
  }

  /** `transform` of one value onto the feature range (0, 1). */
  function Transform(sc: MinMaxScaler, x: real): (v: real)
    ensures v * Range(sc) + sc.dataMin == x
  {
    (x - sc.dataMin) / Range(sc)
  }

  /** `inverse_transform` of one scaled value back to a price. */
  function InverseTransform(sc: MinMaxScaler, v: real): (x: real)
    ensures (x - sc.dataMin) / Range(sc) == v
  {
    v * Range(sc) + sc.dataMin
  }

  /** `fit_transform`: fit on the whole series, then scale every element of it. */
  function FitTransform(s: seq<real>): (r: seq<real>)
    requires |s| > 0
    ensures |r| == |s|
    ensures forall i :: 0 <= i < |s| ==> r[i] == Transform(Fit(s), s[i])
    ensures forall i :: 0 <= i < |s| ==> 0.0 <= r[i] <= 1.0
  {
    var sc := Fit(s);
    forall i | 0 <= i < |s| ensures 0.0 <= Transform(sc, s[i]) <= 1.0 {
      InFittedRange(s, sc, s[i]);
    }
    seq(|s|, i requires 0 <= i < |s| => Transform(sc, s[i]))
  }

  /** A value between the fitted bounds scales into [0, 1]. */
  lemma InFittedRange(s: seq<real>, sc: MinMaxScaler, x: real)
    requires |s| > 0 && sc == Fit(s)
    requires sc.dataMin <= x <= sc.dataMax
    ensures 0.0 <= Transform(sc, x) <= 1.0
  {
    var d := x - sc.dataMin;
    var r := Range(sc);
    assert 0.0 <= d <= r;
    QuotientInUnitInterval(d, r);
  }

  /** Arithmetic fact behind the bounds: 0 <= d <= r with r > 0 gives 0 <= d / r <= 1. */
  lemma QuotientInUnitInterval(d: real, r: real)
    requires 0.0 <= d <= r && 0.0 < r
    ensures 0.0 <= d / r <= 1.0
  {
    var q := d / r;
    assert q * r == d;
  }

  /** Recovering a price: `inverse_transform` undoes `transform` for every value. */
  lemma InverseAfterTransform(sc: MinMaxScaler, x: real)
    ensures InverseTransform(sc, Transform(sc, x)) == x
  {
    var r := Range(sc);
    assert (x - sc.dataMin) / r * r == x - sc.dataMin;
  }

  /** And `transform` undoes `inverse_transform`. */
  lemma TransformAfterInverse(sc: MinMaxScaler, v: real)
    ensures Transform(sc, InverseTransform(sc, v)) == v
  {
    var r := Range(sc);
    assert (v * r + sc.dataMin - sc.dataMin) / r == v * r / r;
  }

  /** Scaling is strictly order-preserving, in both directions. */
  lemma TransformStrictlyMonotone(sc: MinMaxScaler, x: real, y: real)
    ensures x < y <==> Transform(sc, x) < Transform(sc, y)
  {
    var r := Range(sc);
    if x < y {
      assert (y - sc.dataMin) / r - (x - sc.dataMin) / r == (y - x) / r;
    } else {
      assert (x - sc.dataMin) / r - (y - sc.dataMin) / r == (x - y) / r;
    }
  }

  /** Every price of the fitted series is recovered from its scaled value. */
  lemma FittedSeriesRecovered(s: seq<real>, i: nat)
    requires i < |s|
    ensures InverseTransform(Fit(s), FitTransform(s)[i]) == s[i]
  {
    InverseAfterTransform(Fit(s), s[i]);
  }

  /** When the series is not constant, its minimum scales to 0 and its maximum to 1. */
  lemma ExtremesScaleToBounds(s: seq<real>)
    requires |s| > 0
    ensures SeqMin(s) < SeqMax(s) ==>
              Transform(Fit(s), SeqMin(s)) == 0.0 && Transform(Fit(s), SeqMax(s)) == 1.0
  {
    var sc := Fit(s);
    if sc.dataMin < sc.dataMax {
      FittedBoundsScale(sc);
    }
  }

  /** The fitted bounds of a non-degenerate scaler map to the ends of the feature range. */
  lemma FittedBoundsScale(sc: MinMaxScaler)
    requires sc.dataMin < sc.dataMax
    ensures Transform(sc, sc.dataMin) == 0.0 && Transform(sc, sc.dataMax) == 1.0
  {
    var r := sc.dataMax - sc.dataMin;
    assert Range(sc) == r;
    assert r / r == 1.0;
  }

  /** The fitted range is zero exactly for a constant series, which then scales to 0 everywhere. */
  lemma ConstantSeriesScalesToZero(s: seq<real>)
    requires |s| > 0
    ensures Fit(s).dataMin == Fit(s).dataMax <==> forall i :: 0 <= i < |s| ==> s[i] == s[0]
    ensures (forall i :: 0 <= i < |s| ==> s[i] == s[0]) ==>
              forall i :: 0 <= i < |s| ==> FitTransform(s)[i] == 0.0
  {
    var sc := Fit(s);
    if forall i :: 0 <= i < |s| ==> s[i] == s[0] {
      assert sc.dataMin == s[0] && sc.dataMax == s[0];
    }
  }
}
