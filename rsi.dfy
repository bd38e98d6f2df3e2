/**
  The RSI indicator of Highstock (`rsi.src.js`, `getValues`): Wilder-smoothed
  average gain and average loss over the close prices, turned into a
  0..100 oscillator. Every intermediate value passes through `toFixed`
  (module Rounding) exactly where the source rounds it.
 */
module Rsi {
  import opened Indicators
  import opened Rounding

  /** Field of the close price in an OHLC row. */
  const CloseIndex: nat := 3

  /**
    What the host framework guarantees and the source relies on without
    checking: one row per timestamp, a close field in every row after the
    first (the first is checked), and a period of at least 2 (the seed
    averages divide by period - 1).
   */
  predicate WellFormed(xVal: seq<real>, yVal: seq<seq<real>>, period: nat)
  {
    && |yVal| == |xVal|
    && period >= 2
    && forall i :: 1 <= i < |yVal| ==> |yVal[i]| > CloseIndex
  }

  /** The guard that makes `getValues` return `false`. */
  predicate Fails(xVal: seq<real>, yVal: seq<seq<real>>, period: nat)
  {
    |xVal| < period || |yVal| == 0 || |yVal[0]| != 4
  }

  predicate HasCloses(yVal: seq<seq<real>>)
  {
    forall i :: 0 <= i < |yVal| ==> |yVal[i]| > CloseIndex
  }

  lemma ClosesPresent(xVal: seq<real>, yVal: seq<seq<real>>, period: nat)
    requires WellFormed(xVal, yVal, period) && !Fails(xVal, yVal, period)
    ensures HasCloses(yVal) && period <= |yVal|
  {
  }

  function Close(yVal: seq<seq<real>>, i: nat): real
    requires HasCloses(yVal) && i < |yVal|
  {
    yVal[i][CloseIndex]
  }

  /** The rounded close-to-close change at index i. */
  function Change(yVal: seq<seq<real>>, decimals: nat, i: nat): (c: real)
    requires HasCloses(yVal) && 1 <= i < |yVal|
    ensures Close(yVal, i - 1) <= Close(yVal, i) ==> c >= 0.0
    ensures Close(yVal, i) <= Close(yVal, i - 1) ==> c <= 0.0
  {
    ToFixed(Close(yVal, i) - Close(yVal, i - 1), decimals)
  }

  /** A positive change is a gain ... */
  function GainOf(change: real): (g: real)
    ensures g >= 0.0
  {
    if change > 0.0 then change else 0.0
  }

  /** ... anything else is a loss of its absolute value (zero included). */
  function LossOf(change: real): (l: real)
    ensures l >= 0.0
  {
    if change > 0.0 then 0.0 else Abs(change)
  }

  lemma SplitOfChange(c: real)
    ensures GainOf(c) - LossOf(c) == c && GainOf(c) + LossOf(c) == Abs(c)
  {
  }

  /** A gain/loss pair: the running seed sums, or the smoothed averages. */
  datatype Split = Split(gain: real, loss: real)

  /**
    The seed sums after the while loop has consumed the changes at indices
    1 .. range-1. The sums themselves are not rounded.
   */
  function SeedSums(yVal: seq<seq<real>>, decimals: nat, range: nat): (s: Split)
    requires HasCloses(yVal) && 1 <= range <= |yVal|
    ensures s.gain >= 0.0 && s.loss >= 0.0
    decreases range
  {
    if range == 1 then Split(0.0, 0.0)
    else
      var s := SeedSums(yVal, decimals, range - 1);
      var c := Change(yVal, decimals, range - 1);
      Split(s.gain + GainOf(c), s.loss + LossOf(c))
  }

  /** The sum of the rounded changes at indices 1 .. range-1. */
  function NetChange(yVal: seq<seq<real>>, decimals: nat, range: nat): real
    requires HasCloses(yVal) && 1 <= range <= |yVal|
    decreases range
  {
    if range == 1 then 0.0
    else NetChange(yVal, decimals, range - 1) + Change(yVal, decimals, range - 1)
  }

  /** The sum of the absolute rounded changes at indices 1 .. range-1. */
  function TotalMove(yVal: seq<seq<real>>, decimals: nat, range: nat): real
    requires HasCloses(yVal) && 1 <= range <= |yVal|
    decreases range
  {
    if range == 1 then 0.0
    else TotalMove(yVal, decimals, range - 1) + Abs(Change(yVal, decimals, range - 1))
  }

  /** The seed sums split the changes: their difference is the net change, their sum the total movement. */
  lemma {:induction false} SeedSumsSplit(yVal: seq<seq<real>>, decimals: nat, range: nat)
    requires HasCloses(yVal) && 1 <= range <= |yVal|
    ensures SeedSums(yVal, decimals, range).gain - SeedSums(yVal, decimals, range).loss
            == NetChange(yVal, decimals, range)
    ensures SeedSums(yVal, decimals, range).gain + SeedSums(yVal, decimals, range).loss
            == TotalMove(yVal, decimals, range)
  {
    if range > 1 {
      SeedSumsSplit(yVal, decimals, range - 1);
      SplitOfChange(Change(yVal, decimals, range - 1));
    }
  }

  /** One Wilder smoothing step: Round((avg * (period - 1) + x) / period). */
  function Smooth(avg: real, x: real, period: nat, decimals: nat): (r: real)
    requires period >= 1
    ensures avg >= 0.0 && x >= 0.0 ==> r >= 0.0
  {
    WeightedMeanNonNegative(avg, x, (period - 1) as real, period as real);
    ToFixed((avg * (period - 1) as real + x) / period as real, decimals)
  }

  lemma WeightedMeanNonNegative(avg: real, x: real, w: real, p: real)
    requires w >= 0.0 && p > 0.0
    ensures avg >= 0.0 && x >= 0.0 ==> (avg * w + x) / p >= 0.0
  {
    if avg >= 0.0 && x >= 0.0 {
      MultiplyMonotone(0.0, avg, w);
      DivideMonotone(0.0, avg * w + x, p);
    }
  }

  lemma WeightedMeanZero(w: real, p: real)
    requires p > 0.0
    ensures (0.0 * w + 0.0) / p == 0.0
  {
  }

  lemma SmoothZero(period: nat, decimals: nat)
    requires period >= 1
    ensures Smooth(0.0, 0.0, period, decimals) == 0.0
  {
    WeightedMeanZero((period - 1) as real, period as real);
    ToFixedZero(decimals);
  }

  lemma QuotientNonNegative(a: real, b: real)
    requires b > 0.0
    ensures a >= 0.0 ==> a / b >= 0.0
  {
    if a >= 0.0 {
      DivideMonotone(0.0, a, b);
    }
  }

  /** Rounded mean of a seed sum over the period - 1 seed changes. */
  function SeedAverage(sum: real, period: nat, decimals: nat): (r: real)
    requires period >= 2
    ensures sum >= 0.0 ==> r >= 0.0
  {
    QuotientNonNegative(sum, (period - 1) as real);
    ToFixed(sum / (period - 1) as real, decimals)
  }

  lemma SeedAverageZero(period: nat, decimals: nat)
    requires period >= 2
    ensures SeedAverage(0.0, period, decimals) == 0.0
  {
    ToFixedZero(decimals);
  }

  /**
    avgGain and avgLoss once index i has been processed: the seed averages
    at i = period - 1, then one smoothing step per index, fed only by that
    index's own gain or loss. Both stay non-negative.
   */
  function Averages(yVal: seq<seq<real>>, period: nat, decimals: nat, i: nat): (a: Split)
    requires HasCloses(yVal) && period >= 2 && period - 1 <= i < |yVal|
    ensures a.gain >= 0.0 && a.loss >= 0.0
    decreases i
  {
    if i == period - 1 then
      var s := SeedSums(yVal, decimals, period);
      Split(SeedAverage(s.gain, period, decimals), SeedAverage(s.loss, period, decimals))
    else
      var a := Averages(yVal, period, decimals, i - 1);
      var c := Change(yVal, decimals, i);
      Split(Smooth(a.gain, GainOf(c), period, decimals), Smooth(a.loss, LossOf(c), period, decimals))
  }

  /** Index i's averages follow from index i-1's and index i's own change alone. */
  lemma SmoothingStep(yVal: seq<seq<real>>, period: nat, decimals: nat, i: nat)
    requires HasCloses(yVal) && period >= 2 && period <= i < |yVal|
    ensures Averages(yVal, period, decimals, i)
            == Split(Smooth(Averages(yVal, period, decimals, i - 1).gain, GainOf(Change(yVal, decimals, i)), period, decimals),
                     Smooth(Averages(yVal, period, decimals, i - 1).loss, LossOf(Change(yVal, decimals, i)), period, decimals))
  {
  }

  /** The unrounded RSI formula 100 - 100 / (1 + RS), RS = avgGain / avgLoss. */
  function Strength(gain: real, loss: real): (r: real)
    requires gain >= 0.0 && loss > 0.0
    ensures 0.0 <= r < 100.0
  {
    assert gain / loss >= 0.0 by { DivideMonotone(0.0, gain, loss); }
    QuotientAtMost(100.0, 1.0 + gain / loss);
    100.0 - 100.0 / (1.0 + gain / loss)
  }

  /** With both averages positive the formula lies strictly between 0 and 100. */
  lemma StrengthInside(gain: real, loss: real)
    requires gain > 0.0 && loss > 0.0
    ensures 0.0 < Strength(gain, loss) < 100.0
  {
    var q := gain / loss;
    assert q > 0.0 by { MultiplyCancel(gain, loss); }
    QuotientBelow(100.0, 1.0 + q);
  }

  lemma QuotientAtMost(a: real, b: real)
    requires a > 0.0 && b >= 1.0
    ensures 0.0 < a / b <= a
  {
    MultiplyCancel(a, b);
  }

  lemma QuotientBelow(a: real, b: real)
    requires a > 0.0 && b > 1.0
    ensures 0.0 < a / b < a
  {
    MultiplyCancel(a, b);
  }

  /**
    The emitted value for given averages: 100 when avgLoss is 0 whatever
    avgGain is, else 0 when avgGain is 0, else the rounded formula. It lies
    in [0, 100].
   */
  function RsiPoint(a: Split, decimals: nat): (r: real)
    requires a.gain >= 0.0 && a.loss >= 0.0
    ensures 0.0 <= r <= 100.0
  {
    if a.loss == 0.0 then 100.0
    else if a.gain == 0.0 then 0.0
    else
      StrengthInside(a.gain, a.loss);
      ToFixedMonotone(0.0, Strength(a.gain, a.loss), decimals);
      ToFixedMonotone(Strength(a.gain, a.loss), 100.0, decimals);
      ToFixedZero(decimals);
      ToFixedHundred(decimals);
      ToFixed(Strength(a.gain, a.loss), decimals)
  }

  /**
    The output after the for loop has processed indices period .. n-1: one
    point per index, stamped with that index's timestamp.
   */
  function Points(xVal: seq<real>, yVal: seq<seq<real>>, period: nat, decimals: nat, n: nat): (s: Series)
    requires HasCloses(yVal) && |xVal| == |yVal| && period >= 2 && period <= n <= |yVal|
    ensures Aligned(s) && |s.xData| == n - period
    decreases n
  {
    if n == period then Empty
    else
      var s := Points(xVal, yVal, period, decimals, n - 1);
      Push(s, xVal[n - 1], RsiPoint(Averages(yVal, period, decimals, n - 1), decimals))
  }

  lemma PointsNext(xVal: seq<real>, yVal: seq<seq<real>>, period: nat, decimals: nat, i: nat)
    requires HasCloses(yVal) && |xVal| == |yVal| && period >= 2 && period <= i < |yVal|
    ensures Points(xVal, yVal, period, decimals, i + 1)
            == Push(Points(xVal, yVal, period, decimals, i), xVal[i], RsiPoint(Averages(yVal, period, decimals, i), decimals))
  {
  }

  /** What `getValues` returns. */
  function Rsi(xVal: seq<real>, yVal: seq<seq<real>>, period: nat, decimals: nat): (r: Option<Series>)
    requires WellFormed(xVal, yVal, period)
    ensures r.None? <==> Fails(xVal, yVal, period)
    ensures r.Some? ==> Aligned(r.value) && |r.value.xData| == |xVal| - period
  {
    if Fails(xVal, yVal, period) then None
    else
      ClosesPresent(xVal, yVal, period);
      Some(Points(xVal, yVal, period, decimals, |yVal|))
  }

  /** Output point k belongs to input index period + k. */
  lemma {:induction false} PointsAt(xVal: seq<real>, yVal: seq<seq<real>>, period: nat, decimals: nat, n: nat, k: nat)
    requires HasCloses(yVal) && |xVal| == |yVal| && period >= 2 && period <= n <= |yVal|
    requires k < n - period
    ensures Points(xVal, yVal, period, decimals, n).xData[k] == xVal[period + k]
    ensures Points(xVal, yVal, period, decimals, n).yData[k]
            == RsiPoint(Averages(yVal, period, decimals, period + k), decimals)
    decreases n
  {
    if k < n - 1 - period {
      PointsAt(xVal, yVal, period, decimals, n - 1, k);
    }
  }

  /**
    Every output point: its timestamp is xVal[period + k], and its value is
    100 if avgLoss is 0, else 0 if avgGain is 0, else the rounded formula
    over that index's averages; it lies in [0, 100].
   */
  lemma RsiOutput(xVal: seq<real>, yVal: seq<seq<real>>, period: nat, decimals: nat, k: nat)
    requires WellFormed(xVal, yVal, period) && !Fails(xVal, yVal, period)
    requires k < |xVal| - period
    ensures HasCloses(yVal) && period + k < |yVal|
    ensures var s := Rsi(xVal, yVal, period, decimals).value;
            var a := Averages(yVal, period, decimals, period + k);
            && |s.xData| == |xVal| - period && Aligned(s)
            && s.xData[k] == xVal[period + k]
            && s.yData[k] == (if a.loss == 0.0 then 100.0
                              else if a.gain == 0.0 then 0.0
                              else ToFixed(Strength(a.gain, a.loss), decimals))
            && 0.0 <= s.yData[k] <= 100.0
  {
    ClosesPresent(xVal, yVal, period);
    PointsAt(xVal, yVal, period, decimals, |yVal|, k);
  }

  /** Every output point is stamped with its input timestamp and lies in [0, 100]. */
  lemma RsiPoints(xVal: seq<real>, yVal: seq<seq<real>>, period: nat, decimals: nat)
    requires WellFormed(xVal, yVal, period) && !Fails(xVal, yVal, period)
    ensures var s := Rsi(xVal, yVal, period, decimals).value;
            && Aligned(s) && |s.xData| == |xVal| - period
            && forall k :: 0 <= k < |s.xData| ==> s.xData[k] == xVal[period + k] && 0.0 <= s.yData[k] <= 100.0
  {
    var s := Rsi(xVal, yVal, period, decimals).value;
    forall k | 0 <= k < |s.xData|
      ensures s.xData[k] == xVal[period + k] && 0.0 <= s.yData[k] <= 100.0
    {
      RsiOutput(xVal, yVal, period, decimals, k);
    }
  }

  predicate Rising(yVal: seq<seq<real>>)
    requires HasCloses(yVal)
  {
    forall i :: 1 <= i < |yVal| ==> Close(yVal, i - 1) <= Close(yVal, i)
  }

  predicate Falling(yVal: seq<seq<real>>)
    requires HasCloses(yVal)
  {
    forall i :: 1 <= i < |yVal| ==> Close(yVal, i) <= Close(yVal, i - 1)
  }

  lemma {:induction false} RisingHasNoLoss(yVal: seq<seq<real>>, period: nat, decimals: nat, i: nat)
    requires HasCloses(yVal) && Rising(yVal) && period >= 2 && period - 1 <= i < |yVal|
    ensures Averages(yVal, period, decimals, i).loss == 0.0
    decreases i
  {
    if i == period - 1 {
      SeedLossZero(yVal, decimals, period);
      SeedAverageZero(period, decimals);
    } else {
      RisingHasNoLoss(yVal, period, decimals, i - 1);
      assert LossOf(Change(yVal, decimals, i)) == 0.0;
      SmoothZero(period, decimals);
    }
  }

  lemma {:induction false} SeedLossZero(yVal: seq<seq<real>>, decimals: nat, range: nat)
    requires HasCloses(yVal) && Rising(yVal) && 1 <= range <= |yVal|
    ensures SeedSums(yVal, decimals, range).loss == 0.0
    decreases range
  {
    if range > 1 {
      SeedLossZero(yVal, decimals, range - 1);
      assert LossOf(Change(yVal, decimals, range - 1)) == 0.0;
    }
  }

  lemma {:induction false} FallingHasNoGain(yVal: seq<seq<real>>, period: nat, decimals: nat, i: nat)
    requires HasCloses(yVal) && Falling(yVal) && period >= 2 && period - 1 <= i < |yVal|
    ensures Averages(yVal, period, decimals, i).gain == 0.0
    decreases i
  {
    if i == period - 1 {
      SeedGainZero(yVal, decimals, period);
      SeedAverageZero(period, decimals);
    } else {
      FallingHasNoGain(yVal, period, decimals, i - 1);
      assert GainOf(Change(yVal, decimals, i)) == 0.0;
      SmoothZero(period, decimals);
    }
  }

  lemma {:induction false} SeedGainZero(yVal: seq<seq<real>>, decimals: nat, range: nat)
    requires HasCloses(yVal) && Falling(yVal) && 1 <= range <= |yVal|
    ensures SeedSums(yVal, decimals, range).gain == 0.0
    decreases range
  {
    if range > 1 {
      SeedGainZero(yVal, decimals, range - 1);
      assert GainOf(Change(yVal, decimals, range - 1)) == 0.0;
    }
  }

  /** Closes that never fall give 100 at every output point. */
  lemma RisingGivesHundred(xVal: seq<real>, yVal: seq<seq<real>>, period: nat, decimals: nat)
    requires WellFormed(xVal, yVal, period) && !Fails(xVal, yVal, period)
    requires HasCloses(yVal) && Rising(yVal)
    ensures forall k :: 0 <= k < |Rsi(xVal, yVal, period, decimals).value.yData| ==>
              Rsi(xVal, yVal, period, decimals).value.yData[k] == 100.0
  {
    var s := Rsi(xVal, yVal, period, decimals).value;
    forall k | 0 <= k < |s.yData|
      ensures s.yData[k] == 100.0
    {
      RsiOutput(xVal, yVal, period, decimals, k);
      RisingHasNoLoss(yVal, period, decimals, period + k);
    }
  }

  /**
    Closes that never rise give 0 at an output point exactly when avgLoss is
    not 0 there; where the rounded losses vanish the point is 100.
   */
  lemma FallingGivesZeroOrHundred(xVal: seq<real>, yVal: seq<seq<real>>, period: nat, decimals: nat, k: nat)
    requires WellFormed(xVal, yVal, period) && !Fails(xVal, yVal, period)
    requires HasCloses(yVal) && Falling(yVal)
    requires k < |xVal| - period
    ensures Rsi(xVal, yVal, period, decimals).value.yData[k]
            == if Averages(yVal, period, decimals, period + k).loss == 0.0 then 100.0 else 0.0
  {
    RsiOutput(xVal, yVal, period, decimals, k);
    FallingHasNoGain(yVal, period, decimals, period + k);
  }

  /**
    A strictly falling series whose drops all round to zero: every change
    becomes a zero loss, so the one output point is 100, not 0.
   */
  lemma SmallDropsGiveHundred()
    ensures Rsi([1.0, 2.0, 3.0], [[1.0, 1.0, 1.0, 1.0], [1.0, 1.0, 1.0, 0.99996], [1.0, 1.0, 1.0, 0.99992]], 2, 4)
            == Some(Series([(3.0, 100.0)], [3.0], [100.0]))
  {
    var yVal := [[1.0, 1.0, 1.0, 1.0], [1.0, 1.0, 1.0, 0.99996], [1.0, 1.0, 1.0, 0.99992]];
    assert Scale(4) == 10000.0;
    assert Units(0.00004, 4) == 0;
    assert Change(yVal, 4, 1) == 0.0;
    assert Change(yVal, 4, 2) == 0.0;
    ToFixedZero(4);
    assert Averages(yVal, 2, 4, 2).loss == 0.0;
    var xVal := [1.0, 2.0, 3.0];
    assert WellFormed(xVal, yVal, 2) && !Fails(xVal, yVal, 2);
    assert RsiPoint(Averages(yVal, 2, 4, 2), 4) == 100.0;
    assert Points(xVal, yVal, 2, 4, 2) == Empty;
    assert Points(xVal, yVal, 2, 4, 3) == Push(Empty, 3.0, 100.0);
    assert Rsi(xVal, yVal, 2, 4) == Some(Push(Empty, 3.0, 100.0));
    assert Push(Empty, 3.0, 100.0) == Series([(3.0, 100.0)], [3.0], [100.0]);
  }

  /**
    The seed phase of `getValues`: sums the gains and losses of the first
    period - 1 rounded changes (the while loop) and rounds their means.
   */
  method Seeding(yVal: seq<seq<real>>, period: nat, decimals: nat) returns (avgGain: real, avgLoss: real)
    requires HasCloses(yVal) && 2 <= period <= |yVal|
    ensures Split(avgGain, avgLoss) == Averages(yVal, period, decimals, period - 1)
  {
    var range := 1;
    var gain, loss := 0.0, 0.0;
    while range < period
      invariant 1 <= range <= period
      invariant Split(gain, loss) == SeedSums(yVal, decimals, range)
    {
      var change := ToFixed(yVal[range][CloseIndex] - yVal[range - 1][CloseIndex], decimals);
      if change > 0.0 {
        gain := gain + change;
      } else {
        loss := loss + Abs(change);
      }
      range := range + 1;
    }
    avgGain := ToFixed(gain / (period - 1) as real, decimals);
    avgLoss := ToFixed(loss / (period - 1) as real, decimals);
  }

  /**
    One iteration of the for loop of `getValues` at index i: the rounded
    change, its gain/loss split, the smoothed averages, and the point.
   */
  method Row(yVal: seq<seq<real>>, period: nat, decimals: nat, i: nat, avgGain0: real, avgLoss0: real)
    returns (avgGain: real, avgLoss: real, point: real)
    requires HasCloses(yVal) && period >= 2 && period <= i < |yVal|
    requires Split(avgGain0, avgLoss0) == Averages(yVal, period, decimals, i - 1)
    ensures Split(avgGain, avgLoss) == Averages(yVal, period, decimals, i)
    ensures point == RsiPoint(Averages(yVal, period, decimals, i), decimals)
  {
    var gain, loss;
    var change := ToFixed(yVal[i][CloseIndex] - yVal[i - 1][CloseIndex], decimals);
    assert change == Change(yVal, decimals, i);
    if change > 0.0 {
      gain := change;
      loss := 0.0;
    } else {
      gain := 0.0;
      loss := Abs(change);
    }
    assert gain == GainOf(change) && loss == LossOf(change);
    avgGain := Smooth(avgGain0, gain, period, decimals);
    avgLoss := Smooth(avgLoss0, loss, period, decimals);
    SmoothingStep(yVal, period, decimals, i);
    if avgLoss == 0.0 {
      point := 100.0;
    } else if avgGain == 0.0 {
      point := 0.0;
    } else {
      point := ToFixed(Strength(avgGain, avgLoss), decimals);
    }
  }

  /** `getValues`: the guard, the seed phase, then one smoothing step and one pushed point per later index. */
  method GetValues(xVal: seq<real>, yVal: seq<seq<real>>, period: nat, decimals: nat) returns (r: Option<Series>)
    requires WellFormed(xVal, yVal, period)
    ensures r == Rsi(xVal, yVal, period, decimals)
    ensures r.None? <==> Fails(xVal, yVal, period)
    ensures r.Some? ==> Aligned(r.value) && |r.value.xData| == |xVal| - period
    ensures r.Some? ==> forall k :: 0 <= k < |r.value.xData| ==>
              r.value.xData[k] == xVal[period + k] && 0.0 <= r.value.yData[k] <= 100.0
  {
    var yValLen := |yVal|;
    var rsi: seq<(real, real)> := [];
    var xData: seq<real> := [];
    var yData: seq<real> := [];

    if |xVal| < period || yValLen == 0 || |yVal[0]| != 4 {
      return None;
    }
    ClosesPresent(xVal, yVal, period);

    var avgGain, avgLoss := Seeding(yVal, period, decimals);

    var i := period;
    while i < yValLen
      invariant period <= i <= yValLen
      invariant Split(avgGain, avgLoss) == Averages(yVal, period, decimals, i - 1)
      invariant Series(rsi, xData, yData) == Points(xVal, yVal, period, decimals, i)
    {
      var point;
      avgGain, avgLoss, point := Row(yVal, period, decimals, i, avgGain, avgLoss);
      PointsNext(xVal, yVal, period, decimals, i);
      rsi := rsi + [(xVal[i], point)];
      xData := xData + [xVal[i]];
      yData := yData + [point];
      i := i + 1;
    }
    r := Some(Series(rsi, xData, yData));
    RsiPoints(xVal, yVal, period, decimals);
  }
}
