/**
 * The data-preparation prefix of `build_lstm_model` (main.py:79-87): scale the
 * closing prices, then slide a window of 60 scaled prices over them, with the
 * price right after each window as its target.
 *
 * The scaler is fitted over the entire series, the prices that become targets
 * included; this is the code's behaviour and is kept (see TargetsInsideFittedRange
 * and LeakageWitness).
 */
module Windows {
  import opened Wrappers
  import Scaling

  /** The window length: the loop starts at index 60 and slices `i-60:i`. */
  const Lookback: nat := 60

  /** Python's `range(lo, hi)`: the integers from `lo` up to but excluding `hi`, in order. */
  function PyRange(lo: int, hi: int): (r: seq<int>)
    ensures forall k :: 0 <= k < |r| ==> r[k] == lo + k
    decreases hi - lo
  {
    if lo >= hi then [] else [lo] + PyRange(lo + 1, hi)
  }

  /** The number of (input, target) pairs built from `n` scaled prices: one per index of `range(60, n)`. */
  function WindowCount(n: nat): (c: nat)
    ensures c == |PyRange(Lookback, n)|
  {
    RangeLength(Lookback, n);
    if n > Lookback then n - Lookback else 0
  }

  lemma {:induction false} RangeLength(lo: int, hi: int)
    ensures |PyRange(lo, hi)| == if hi > lo then hi - lo else 0
    decreases hi - lo
  {
    if lo < hi {
      RangeLength(lo + 1, hi);
    }
  }

  /**
   * The loop at main.py:82-85: `X` and `y` start empty; for each `i` in
   * `range(60, len(scaled))` it appends `scaled[i-60:i]` to `X` and `scaled[i]` to `y`.
   */
  method BuildWindows(scaled: seq<real>) returns (xs: seq<seq<real>>, ys: seq<real>)
    ensures |xs| == |ys| == WindowCount(|scaled|)
    ensures forall k :: 0 <= k < |xs| ==> |xs[k]| == Lookback && xs[k] == scaled[k..k + Lookback]
    ensures forall k :: 0 <= k < |ys| ==> ys[k] == scaled[k + Lookback]
    ensures |scaled| > Lookback ==> ys == scaled[Lookback..]
    ensures forall k :: 0 <= k < |xs| - 1 ==> xs[k + 1] == xs[k][1..] + [ys[k]]
  {
    xs, ys := [], [];
    var i := Lookback;
    while i < |scaled|
      invariant Lookback <= i
      invariant i == Lookback || i <= |scaled|
      invariant |xs| == |ys| == i - Lookback
      invariant forall k :: 0 <= k < |xs| ==> xs[k] == scaled[k..k + Lookback]
      invariant forall k :: 0 <= k < |ys| ==> ys[k] == scaled[k + Lookback]
    {
      xs := xs + [scaled[i - Lookback..i]];
      ys := ys + [scaled[i]];
      i := i + 1;
    }
    assert |scaled| <= Lookback ==> i == Lookback;
    forall k | 0 <= k < |xs| - 1 ensures xs[k + 1] == xs[k][1..] + [ys[k]] {
      SlidingStep(scaled, k);
    }
  }

  /** Consecutive slices of 60 overlap in all but one element: the sliding step is 1. */
  lemma SlidingStep(scaled: seq<real>, k: nat)
    requires k + Lookback + 1 < |scaled|
    ensures scaled[k + 1..k + 1 + Lookback] == scaled[k..k + Lookback][1..] + [scaled[k + Lookback]]
  {
    var next := scaled[k + 1..k + 1 + Lookback];
    var shifted := scaled[k..k + Lookback][1..] + [scaled[k + Lookback]];
    assert |next| == |shifted|;
    forall m | 0 <= m < |next| ensures next[m] == shifted[m] {
      if m < Lookback - 1 {
        assert shifted[m] == scaled[k..k + Lookback][m + 1];
      }
    }
  }

  /** Why the training data cannot be built. */
  datatype PrepError =
    | EmptySeries   // the scaler's fit on zero samples raises
    | NoWindows     // with no window `X` has no second axis, so the reshape at main.py:87 raises

  /** What `build_lstm_model` hands to the network: the fitted scaler, the inputs and the targets. */
  datatype TrainingData = TrainingData(scaler: Scaling.MinMaxScaler, inputs: seq<seq<real>>, targets: seq<real>)

  /** main.py:79-87 for a closing-price series, up to the reshape that precedes the network. */
  method PrepareTrainingData(closes: seq<real>) returns (r: Result<TrainingData, PrepError>)
    ensures r == Failure(EmptySeries) <==> |closes| == 0
    ensures r == Failure(NoWindows) <==> 0 < |closes| <= Lookback
    ensures r.Success? <==> |closes| > Lookback
    ensures r.Success? ==> |closes| > Lookback && r.value.scaler == Scaling.Fit(closes)
    ensures r.Success? ==> |r.value.inputs| == |r.value.targets| == |closes| - Lookback
    ensures r.Success? ==> forall k :: 0 <= k < |r.value.inputs| ==>
              r.value.inputs[k] == Scaling.FitTransform(closes)[k..k + Lookback] &&
              r.value.targets[k] == Scaling.Transform(r.value.scaler, closes[k + Lookback])
    ensures r.Success? ==> forall k, m :: 0 <= k < |r.value.inputs| && 0 <= m < |r.value.inputs[k]| ==>
              0.0 <= r.value.inputs[k][m] <= 1.0
    ensures r.Success? ==> forall k :: 0 <= k < |r.value.targets| ==>
              0.0 <= r.value.targets[k] <= 1.0 &&
              Scaling.InverseTransform(r.value.scaler, r.value.targets[k]) == closes[k + Lookback]
  {
    if |closes| == 0 {
      return Failure(EmptySeries);
    }
    var scaler := Scaling.Fit(closes);
    var scaled := Scaling.FitTransform(closes);
    var xs, ys := BuildWindows(scaled);
    if |xs| == 0 {
      return Failure(NoWindows);
    }
    forall k | 0 <= k < |ys|
      ensures Scaling.InverseTransform(scaler, ys[k]) == closes[k + Lookback]
    {
      Scaling.InverseAfterTransform(scaler, closes[k + Lookback]);
    }
    forall k, m | 0 <= k < |xs| && 0 <= m < |xs[k]| ensures 0.0 <= xs[k][m] <= 1.0 {
      assert xs[k][m] == scaled[k + m];
    }
    r := Success(TrainingData(scaler, xs, ys));
  }

  /**
   * Because the scaler is fitted over the targets too, no target ever falls outside
   * [0, 1]: every target price lies between the fitted minimum and maximum.
   */
  lemma TargetsInsideFittedRange(closes: seq<real>, k: nat)
    requires k + Lookback < |closes|
    ensures Scaling.Fit(closes).dataMin <= closes[k + Lookback] <= Scaling.Fit(closes).dataMax
    ensures 0.0 <= Scaling.FitTransform(closes)[k + Lookback] <= 1.0
  {
  }

  /**
   * The leakage the whole-series fit hides: for the rising series 0, 1, ..., 60, a
   * scaler fitted on the first window alone would put its target at 60/59 > 1,
   * whereas the code's scaler, fitted on all 61 prices, maps it to exactly 1.
   */
  lemma LeakageWitness()
    ensures var s := seq(Lookback + 1, i => i as real);
            Scaling.Transform(Scaling.Fit(s[..Lookback]), s[Lookback]) > 1.0 &&
            Scaling.FitTransform(s)[Lookback] == 1.0
  {
    var s := seq(Lookback + 1, i => i as real);
    var head := s[..Lookback];
    var inputOnly := Scaling.Fit(head);
    assert head[0] == 0.0 && head[Lookback - 1] == 59.0;
    assert forall i :: 0 <= i < |head| ==> head[i] == i as real;
    assert inputOnly.dataMin == 0.0;
    assert inputOnly.dataMax == 59.0;
    assert Scaling.Transform(inputOnly, 60.0) == 60.0 / 59.0;
    var whole := Scaling.Fit(s);
    assert forall i :: 0 <= i < |s| ==> s[i] == i as real;
    assert s[0] == 0.0 && s[Lookback] == 60.0;
    assert whole.dataMin == 0.0 && whole.dataMax == 60.0;
    Scaling.FittedBoundsScale(whole);
  }
}
