/**
 * The technical indicators over a price series, on exact reals: the simple
 * moving average, the exponential moving average, MACD built from three EMAs,
 * and the relative strength index with Wilder's running averages.
 *
 * The RSI loop as written reads `gains[i]` for `i` up to `len(closes) - 1`,
 * one past the end of `gains` (which has `len(closes) - 1` entries), so it
 * fails for every series longer than the period. `CalculateRsiAsWritten`
 * models that failure. `CalculateRsi` is Wilder's RSI: the value at index
 * `period` comes from the initial means of the first `period` changes, and each
 * later index `i` folds in `gains[i - 1]`, the change that ends at `closes[i]`.
 * The source folds `gains[i]` at index `i`, so every value it computes belongs
 * one index later.
 */
module Indicators {
  import opened Wrappers

  function Sum(s: seq<real>): real {
    if s == [] then 0.0 else Sum(s[..|s| - 1]) + s[|s| - 1]
  }

  /** `np.mean`. */
  function Mean(s: seq<real>): real
    requires |s| > 0
  {
    Sum(s) / (|s| as real)
  }

  predicate Between(s: seq<real>, lo: real, hi: real) {
    forall i :: 0 <= i < |s| ==> lo <= s[i] <= hi
  }

  predicate NonNegative(s: seq<real>) {
    forall i :: 0 <= i < |s| ==> 0.0 <= s[i]
  }

  lemma {:induction false} SumBounds(s: seq<real>, lo: real, hi: real)
    requires Between(s, lo, hi)
    ensures (|s| as real) * lo <= Sum(s) <= (|s| as real) * hi
  {
    if s != [] {
      SumBounds(s[..|s| - 1], lo, hi);
      var n := (|s| - 1) as real;
      assert (n + 1.0) * lo == n * lo + lo;
      assert (n + 1.0) * hi == n * hi + hi;
    }
  }

  lemma {:induction false} SumNonNegative(s: seq<real>)
    requires NonNegative(s)
    ensures Sum(s) >= 0.0
  {
    if s != [] {
      SumNonNegative(s[..|s| - 1]);
    }
  }

  /** The mean lies between any bounds of the values; a constant series has that constant as mean. */
  lemma MeanBounds(s: seq<real>, lo: real, hi: real)
    requires |s| > 0 && Between(s, lo, hi)
    ensures lo <= Mean(s) <= hi
  {
    SumBounds(s, lo, hi);
    var n := |s| as real;
    assert Mean(s) * n == Sum(s);
  }

  lemma MeanNonNegative(s: seq<real>)
    requires |s| > 0 && NonNegative(s)
    ensures Mean(s) >= 0.0
  {
    SumNonNegative(s);
  }

  // ---------------------------------------------------------------- SMA

  /**
   * `calculate_sma`: `period - 1` leading `None`s, then the mean of each
   * window of `period` prices ending at `i`.
   */
  method CalculateSma(prices: seq<real>, period: int) returns (sma: seq<Option<real>>)
    requires period >= 1
    ensures |sma| == if |prices| >= period then |prices| else period - 1
    ensures forall i :: 0 <= i < period - 1 ==> sma[i] == None
    ensures forall i :: period - 1 <= i < |prices| ==> sma[i] == Some(Mean(prices[i - period + 1..i + 1]))
  {
    sma := seq(period - 1, _ => None);
    var i := period - 1;
    while i < |prices|
      invariant period - 1 <= i
      invariant i <= |prices| || i == period - 1
      invariant |sma| == i
      invariant forall k :: 0 <= k < period - 1 ==> sma[k] == None
      invariant forall k :: period - 1 <= k < i ==> sma[k] == Some(Mean(prices[k - period + 1..k + 1]))
    {
      sma := sma + [Some(Mean(prices[i - period + 1..i + 1]))];
      i := i + 1;
    }
  }

  // ---------------------------------------------------------------- EMA

  /** `2 / (period + 1)`. */
  function Multiplier(period: int): real
    requires period != -1
  {
    2.0 / ((period + 1) as real)
  }

  /** For a period of at least 1 the weight of the new price lies in (0, 1]. */
  lemma MultiplierIsWeight(period: int)
    requires period >= 1
    ensures 0.0 < Multiplier(period) <= 1.0
  {
    var m := Multiplier(period);
    assert m * ((period + 1) as real) == 2.0;
  }

  /** The new EMA value: `price * m + previous * (1 - m)`. */
  function Blend(price: real, previous: real, m: real): real {
    price * m + previous * (1.0 - m)
  }

  /** The EMA series: starts at the first price, then blends each new price with the previous value. */
  function Ema(prices: seq<real>, period: int): (ema: seq<real>)
    requires |prices| > 0 && period != -1
    ensures |ema| == |prices| && ema[0] == prices[0]
    decreases |prices|
  {
    if |prices| == 1 then [prices[0]]
    else
      var previous := Ema(prices[..|prices| - 1], period);
      var m := Multiplier(period);
      previous + [Blend(prices[|prices| - 1], previous[|previous| - 1], m)]
  }

  /** The EMA of a prefix is the prefix of the EMA. */
  lemma {:induction false} EmaPrefix(prices: seq<real>, period: int, k: nat)
    requires 1 <= k <= |prices| && period != -1
    ensures Ema(prices[..k], period) == Ema(prices, period)[..k]
    decreases |prices|
  {
    if k < |prices| {
      EmaPrefix(prices[..|prices| - 1], period, k);
      assert prices[..|prices| - 1][..k] == prices[..k];
    } else {
      assert prices[..k] == prices;
    }
  }

  /** Dropping the last price drops the last EMA value; the last value blends the last price with the one before. */
  lemma EmaLast(prices: seq<real>, period: int)
    requires |prices| >= 2 && period != -1
    ensures Ema(prices, period)[..|prices| - 1] == Ema(prices[..|prices| - 1], period)
    ensures Ema(prices, period)[|prices| - 1]
         == Blend(prices[|prices| - 1], Ema(prices[..|prices| - 1], period)[|prices| - 2], Multiplier(period))
  {
  }

  /** Each EMA value after the first is `price * m + previous * (1 - m)` with `m = 2 / (period + 1)`. */
  lemma EmaStep(prices: seq<real>, period: int, i: nat)
    requires 1 <= i < |prices| && period != -1
    ensures Ema(prices, period)[i] == Blend(prices[i], Ema(prices, period)[i - 1], Multiplier(period))
  {
    var p := prices[..i + 1];
    assert |p| == i + 1 && p[..|p| - 1] == prices[..i] && p[|p| - 1] == prices[i];
    var e := Ema(prices, period);
    var head := Ema(p, period);
    EmaPrefix(prices, period, i + 1);
    assert head == e[..i + 1];
    EmaLast(p, period);
    assert head[..i] == Ema(prices[..i], period);
    assert e[i - 1] == head[i - 1] == Ema(prices[..i], period)[i - 1];
  }

  /** A constant series has a constant EMA. */
  lemma {:induction false} EmaOfConstant(prices: seq<real>, period: int, c: real)
    requires |prices| > 0 && period != -1 && Between(prices, c, c)
    ensures Between(Ema(prices, period), c, c)
    decreases |prices|
  {
    if |prices| > 1 {
      EmaOfConstant(prices[..|prices| - 1], period, c);
      var m := Multiplier(period);
      assert c * m + c * (1.0 - m) == c;
    }
  }

  lemma ProductNonNegative(a: real, b: real)
    requires a >= 0.0 && b >= 0.0
    ensures a * b >= 0.0
  {
  }

  /** A blend with a weight in [0, 1] lies between the two blended values' bounds. */
  lemma BlendBetween(p: real, q: real, m: real, lo: real, hi: real)
    requires lo <= p <= hi && lo <= q <= hi && 0.0 <= m <= 1.0
    ensures lo <= Blend(p, q, m) <= hi
  {
    ProductNonNegative(p - lo, m);
    ProductNonNegative(q - lo, 1.0 - m);
    ProductNonNegative(hi - p, m);
    ProductNonNegative(hi - q, 1.0 - m);
    assert Blend(p, q, m) - lo == (p - lo) * m + (q - lo) * (1.0 - m);
    assert hi - Blend(p, q, m) == (hi - p) * m + (hi - q) * (1.0 - m);
  }

  /** For a period of at least 1 the EMA stays within any bounds of the prices. */
  lemma {:induction false} EmaWithinBounds(prices: seq<real>, period: int, lo: real, hi: real)
    requires |prices| > 0 && period >= 1 && Between(prices, lo, hi)
    ensures Between(Ema(prices, period), lo, hi)
    decreases |prices|
  {
    if |prices| > 1 {
      var init := prices[..|prices| - 1];
      EmaWithinBounds(init, period, lo, hi);
      var previous := Ema(init, period);
      MultiplierIsWeight(period);
      BlendBetween(prices[|prices| - 1], previous[|previous| - 1], Multiplier(period), lo, hi);
    }
  }

  /** `calculate_ema`: appends one blended value per price. */
  method CalculateEma(prices: seq<real>, period: int) returns (ema: seq<real>)
    requires |prices| > 0 && period != -1
    ensures ema == Ema(prices, period)
  {
    var multiplier := Multiplier(period);
    ema := [prices[0]];
    for i := 1 to |prices|
      invariant ema == Ema(prices[..i], period)
    {
      var p := prices[..i + 1];
      assert |p| == i + 1 && p[..|p| - 1] == prices[..i] && p[|p| - 1] == prices[i];
      EmaLast(p, period);
      var value := prices[i] * multiplier + ema[i - 1] * (1.0 - multiplier);
      assert value == Blend(prices[i], ema[i - 1], multiplier);
      var next := Ema(p, period);
      assert next == ema + [value];
      ema := ema + [value];
    }
    assert prices[..|prices|] == prices;
  }

  // ---------------------------------------------------------------- MACD

  datatype Macd = Macd(macd: seq<real>, signal: seq<real>, histogram: seq<real>)

  /** `ema12 - ema26` elementwise. */
  function MacdLine(closes: seq<real>): (line: seq<real>)
    requires |closes| > 0
    ensures |line| == |closes|
  {
    var ema12 := Ema(closes, 12);
    var ema26 := Ema(closes, 26);
    seq(|closes|, i requires 0 <= i < |closes| => ema12[i] - ema26[i])
  }

  /** `calculate_macd`: the MACD line, its 9-period EMA as signal, and their difference; all as long as the input. */
  function CalculateMacd(closes: seq<real>): (r: Macd)
    requires |closes| > 0
    ensures |r.macd| == |closes| && |r.signal| == |closes| && |r.histogram| == |closes|
  {
    var macd := MacdLine(closes);
    var signal := Ema(macd, 9);
    Macd(macd, signal, seq(|closes|, i requires 0 <= i < |closes| => macd[i] - signal[i]))
  }

  /** The first MACD, signal and histogram values are all zero: both EMAs start at the first close. */
  lemma MacdStartsAtZero(closes: seq<real>)
    requires |closes| > 0
    ensures CalculateMacd(closes).macd[0] == 0.0
    ensures CalculateMacd(closes).signal[0] == 0.0
    ensures CalculateMacd(closes).histogram[0] == 0.0
  {
  }

  /** A constant series has MACD, signal and histogram identically zero. */
  lemma MacdOfConstant(closes: seq<real>, c: real)
    requires |closes| > 0 && Between(closes, c, c)
    ensures Between(CalculateMacd(closes).macd, 0.0, 0.0)
    ensures Between(CalculateMacd(closes).signal, 0.0, 0.0)
    ensures Between(CalculateMacd(closes).histogram, 0.0, 0.0)
  {
    EmaOfConstant(closes, 12, c);
    EmaOfConstant(closes, 26, c);
    var macd := MacdLine(closes);
    EmaOfConstant(macd, 9, 0.0);
  }

  // ---------------------------------------------------------------- RSI

  /** `np.where(deltas > 0, deltas, 0)` over `np.diff(closes)`. */
  function Gains(closes: seq<real>): (g: seq<real>)
    ensures |g| == if |closes| == 0 then 0 else |closes| - 1
    ensures NonNegative(g)
  {
    if |closes| == 0 then []
    else seq(|closes| - 1, k requires 0 <= k < |closes| - 1 =>
           if closes[k + 1] - closes[k] > 0.0 then closes[k + 1] - closes[k] else 0.0)
  }

  /** `np.where(deltas < 0, -deltas, 0)` over `np.diff(closes)`. */
  function Losses(closes: seq<real>): (l: seq<real>)
    ensures |l| == if |closes| == 0 then 0 else |closes| - 1
    ensures NonNegative(l)
  {
    if |closes| == 0 then []
    else seq(|closes| - 1, k requires 0 <= k < |closes| - 1 =>
           if closes[k + 1] - closes[k] < 0.0 then closes[k] - closes[k + 1] else 0.0)
  }

  /** Gains and losses split each price change: their difference is the change itself. */
  lemma GainsMinusLosses(closes: seq<real>, k: nat)
    requires k + 1 < |closes|
    ensures Gains(closes)[k] - Losses(closes)[k] == closes[k + 1] - closes[k]
    ensures Gains(closes)[k] == 0.0 || Losses(closes)[k] == 0.0
  {
  }

  /** One RSI value from the average gain and loss; zero average loss gives 100 or, with no gain either, 0. */
  function RsiValue(avgGain: real, avgLoss: real): (v: real)
    requires avgGain >= 0.0 && avgLoss >= 0.0
    ensures 0.0 <= v <= 100.0
    ensures avgLoss == 0.0 ==> v == (if avgGain > 0.0 then 100.0 else 0.0)
    ensures avgLoss > 0.0 ==> v < 100.0
  {
    if avgLoss == 0.0 then (if avgGain > 0.0 then 100.0 else 0.0)
    else
      var rs := avgGain / avgLoss;
      assert rs * avgLoss == avgGain;
      assert rs >= 0.0;
      var d := 1.0 + rs;
      assert (100.0 / d) * d == 100.0;
      100.0 - 100.0 / d
  }

  /** `(avg * (period - 1) + x) / period`, non-negative for non-negative inputs. */
  function WilderUpdate(average: real, x: real, period: int): (r: real)
    requires period >= 1
    ensures average >= 0.0 && x >= 0.0 ==> r >= 0.0
  {
    assert average >= 0.0 ==> average * ((period - 1) as real) >= 0.0;
    (average * ((period - 1) as real) + x) / (period as real)
  }

  /**
   * Wilder's running average at step `i` (period <= i <= |xs|): the mean of the
   * first `period` values at step `period`, then `xs[i - 1]` folded in at each
   * later step.
   */
  function SmoothedAverage(xs: seq<real>, period: int, i: int): (r: real)
    requires 1 <= period <= i <= |xs|
    requires NonNegative(xs)
    ensures r >= 0.0
    decreases i
  {
    if i == period then MeanNonNegative(xs[..period]); Mean(xs[..period])
    else WilderUpdate(SmoothedAverage(xs, period, i - 1), xs[i - 1], period)
  }

  /** The RSI value at index `i` of the corrected indicator. */
  function RsiAt(closes: seq<real>, period: int, i: int): real
    requires 1 <= period <= i < |closes|
  {
    RsiValue(SmoothedAverage(Gains(closes), period, i), SmoothedAverage(Losses(closes), period, i))
  }

  /** The first RSI value is that of the plain means of the first `period` gains and losses. */
  lemma RsiStartsFromInitialMeans(closes: seq<real>, period: int)
    requires 1 <= period < |closes|
    ensures var gain, loss := Mean(Gains(closes)[..period]), Mean(Losses(closes)[..period]);
            gain >= 0.0 && loss >= 0.0 && RsiAt(closes, period, period) == RsiValue(gain, loss)
  {
    MeanNonNegative(Gains(closes)[..period]);
    MeanNonNegative(Losses(closes)[..period]);
  }

  /**
   * Closes 0, 2, 1 with period 2: the initial averages are a gain of 1 and a
   * loss of 1/2, so the first RSI value is 200/3; folding the last change a
   * second time would give 40 instead.
   */
  lemma FirstRsiOfShortSeries()
    ensures RsiAt([0.0, 2.0, 1.0], 2, 2) == 200.0 / 3.0
  {
    var gains := Gains([0.0, 2.0, 1.0]);
    var losses := Losses([0.0, 2.0, 1.0]);
    assert gains == [2.0, 0.0];
    assert losses == [0.0, 1.0];
    assert gains[..2] == gains && losses[..2] == losses;
    assert Sum(gains) == 2.0 by { assert gains[..1] == [2.0] && [2.0][..0] == []; }
    assert Sum(losses) == 1.0 by { assert losses[..1] == [0.0] && [0.0][..0] == []; }
    assert RsiValue(1.0, 0.5) == 200.0 / 3.0;
  }

  /** `np.mean(xs[:period])` as the source computes it before the loop; unused when the loop does not run. */
  function InitialAverage(xs: seq<real>, period: int): (r: real)
    requires period >= 1 && NonNegative(xs)
    ensures r >= 0.0
    ensures |xs| >= period ==> r == Mean(xs[..period])
  {
    if |xs| == 0 then 0.0  // numpy gives NaN here; the value is never read
    else
      var n := if period <= |xs| then period else |xs|;
      MeanNonNegative(xs[..n]);
      Mean(xs[..n])
  }

  datatype RsiError = IndexOutOfBounds(index: int, length: int)

  /**
   * `calculate_rsi` as written: the loop reads `gains[i]` and `losses[i]`,
   * so it raises `IndexError` at `i = len(closes) - 1` whenever the loop runs
   * at all; otherwise it returns `period` `None`s.
   */
  method CalculateRsiAsWritten(closes: seq<real>, period: int) returns (result: Result<seq<Option<real>>, RsiError>)
    requires period >= 1
    ensures result.Failure? <==> |closes| > period
    ensures result.Failure? ==> result.error == IndexOutOfBounds(|closes| - 1, |closes| - 1)
    ensures result.Success? ==> result.value == seq(period, _ => None)
  {
    var gains := Gains(closes);
    var losses := Losses(closes);
    var avgGain := InitialAverage(gains, period);
    var avgLoss := InitialAverage(losses, period);
    var rsi: seq<Option<real>> := seq(period, _ => None);
    var i := period;
    while i < |closes|
      invariant period <= i
      invariant |closes| > period ==> i < |closes|
      invariant |closes| <= period ==> rsi == seq(period, _ => None)
      invariant avgGain >= 0.0 && avgLoss >= 0.0
    {
      if i >= |gains| {
        return Failure(IndexOutOfBounds(i, |gains|));
      }
      avgGain := WilderUpdate(avgGain, gains[i], period);
      avgLoss := WilderUpdate(avgLoss, losses[i], period);
      rsi := rsi + [Some(RsiValue(avgGain, avgLoss))];
      i := i + 1;
    }
    return Success(rsi);
  }

  /**
   * `calculate_rsi` with the index fixed: `period` leading `None`s, the RSI of
   * the initial averages at index `period`, and for each later index the RSI of
   * Wilder's averages after folding in the change that ends there.
   */
  method CalculateRsi(closes: seq<real>, period: int) returns (rsi: seq<Option<real>>)
    requires period >= 1
    ensures |rsi| == if |closes| > period then |closes| else period
    ensures forall i :: 0 <= i < period ==> rsi[i] == None
    ensures forall i :: period <= i < |closes| ==> rsi[i] == Some(RsiAt(closes, period, i))
    ensures forall i :: period <= i < |rsi| ==> rsi[i].Some? && 0.0 <= rsi[i].value <= 100.0
  {
    var gains := Gains(closes);
    var losses := Losses(closes);
    var avgGain := InitialAverage(gains, period);
    var avgLoss := InitialAverage(losses, period);
    rsi := seq(period, _ => None);
    var i := period;
    while i < |closes|
      invariant period <= i
      invariant i <= |closes| || i == period
      invariant |rsi| == i
      invariant forall k :: 0 <= k < period ==> rsi[k] == None
      invariant forall k :: period <= k < i ==> rsi[k] == Some(RsiAt(closes, period, k))
      invariant i > period ==> avgGain == SmoothedAverage(gains, period, i - 1) && avgLoss == SmoothedAverage(losses, period, i - 1)
      invariant i == period ==> avgGain == InitialAverage(gains, period) && avgLoss == InitialAverage(losses, period)
      invariant avgGain >= 0.0 && avgLoss >= 0.0
    {
      if i == period {
        assert |gains| >= period;
        assert avgGain == Mean(gains[..period]) && avgLoss == Mean(losses[..period]);
      } else {
        avgGain := WilderUpdate(avgGain, gains[i - 1], period);
        avgLoss := WilderUpdate(avgLoss, losses[i - 1], period);
      }
      rsi := rsi + [Some(RsiValue(avgGain, avgLoss))];
      i := i + 1;
    }
  }
}
