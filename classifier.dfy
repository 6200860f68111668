/** The mouth-shape classifier `getSmartMouthShape` (identical in
    assets/js/app.js and api/app.js): a threshold function over one snapshot of
    the analyser's byte frequency data and byte time-domain data. */
module Classifier {

  /** The six keys of the clip library. */
  datatype Shape = Closed | Narrow | Neutral | Open | WideOpen | Express

  /** An element of a `Uint8Array`. */
  type Byte = x: int | 0 <= x < 256

  /** The analyser's buffer sizes for `fftSize = 256`: `frequencyBinCount`
      frequency bins and `fftSize` time samples. */
  const FrequencyBins := 128
  const TimeSamples := 256

  function Sum(s: seq<Byte>): (r: int)
    ensures 0 <= r <= 255 * |s|
  {
    if s == [] then 0 else Sum(s[..|s| - 1]) + s[|s| - 1]
  }

  /** `timeData.reduce((sum, val) => sum + Math.abs(val - 128), 0)`. */
  function DeviationSum(t: seq<Byte>): (r: int)
    ensures 0 <= r <= 128 * |t|
  {
    if t == [] then 0
    else
      var v := t[|t| - 1];
      DeviationSum(t[..|t| - 1]) + (if v >= 128 then v - 128 else 128 - v)
  }

  /** The JavaScript averages, as exact reals. */
  function Volume(t: seq<Byte>): real
    requires |t| > 0
  {
    DeviationSum(t) as real / |t| as real
  }

  function LowMean(f: seq<Byte>): real
    requires |f| >= 64
  {
    Sum(f[0..8]) as real / 8.0
  }

  function MidMean(f: seq<Byte>): real
    requires |f| >= 64
  {
    Sum(f[8..32]) as real / 24.0
  }

  function HighMean(f: seq<Byte>): real
    requires |f| >= 64
  {
    Sum(f[32..64]) as real / 32.0
  }

  /** The classifier as the source writes it, with the averages divided out.
      `coin` is the `Math.random()` draw of the two top bands. */
  function ClassifyByMeans(f: seq<Byte>, t: seq<Byte>, coin: real): Shape
    requires |f| >= 64 && |t| > 0
  {
    var volume, low, mid, high := Volume(t), LowMean(f), MidMean(f), HighMean(f);
    if volume < 3.0 then Closed
    else if volume < 8.0 then (if high > 45.0 then Narrow else Neutral)
    else if volume < 14.0 then (if mid > 55.0 then Open else Neutral)
    else if volume < 20.0 then (if mid > 65.0 then Open else if coin < 0.4 then Express else WideOpen)
    else if coin < 0.6 then WideOpen else Express
  }

  /** A quotient against an integer bound, cross-multiplied. */
  lemma QuotientBelow(a: int, n: int, k: int)
    requires n > 0
    ensures (a as real / n as real < k as real) <==> a < k * n
  {
    var q := a as real / n as real;
    assert q * n as real == a as real;
    if q < k as real {
      assert q * n as real < k as real * n as real;
    } else {
      assert q * n as real >= k as real * n as real;
    }
  }

  /** The classifier in integers: every average is compared by
      cross-multiplying, so a mean of 45 over 32 bins is a sum of 1440. It
      agrees with the divided form, hence with the bands below. */
  function Classify(f: seq<Byte>, t: seq<Byte>, coin: real): (r: Shape)
    requires |f| >= 64 && |t| > 0
    ensures r == ClassifyByMeans(f, t, coin)
    ensures Volume(t) < 3.0 ==> r == Closed
    ensures 3.0 <= Volume(t) < 8.0 ==> (r == Narrow <==> HighMean(f) > 45.0) && (r == Narrow || r == Neutral)
    ensures 8.0 <= Volume(t) < 14.0 ==> (r == Open <==> MidMean(f) > 55.0) && (r == Open || r == Neutral)
    ensures 14.0 <= Volume(t) < 20.0 ==>
      (MidMean(f) > 65.0 ==> r == Open)
      && (MidMean(f) <= 65.0 ==> r == (if coin < 0.4 then Express else WideOpen))
    ensures 20.0 <= Volume(t) ==> r == (if coin < 0.6 then WideOpen else Express)
  {
    var v, n := DeviationSum(t), |t|;
    var mid, high := Sum(f[8..32]), Sum(f[32..64]);
    QuotientBelow(v, n, 3);
    QuotientBelow(v, n, 8);
    QuotientBelow(v, n, 14);
    QuotientBelow(v, n, 20);
    if v < 3 * n then Closed
    else if v < 8 * n then (if high > 1440 then Narrow else Neutral)
    else if v < 14 * n then (if mid > 1320 then Open else Neutral)
    else if v < 20 * n then (if mid > 1560 then Open else if coin < 0.4 then Express else WideOpen)
    else if coin < 0.6 then WideOpen else Express
  }

  /** The low band (bins 0 to 7) is averaged but never consulted: two snapshots
      that agree on bins 8 to 63 classify alike. */
  lemma LowBandIgnored(f: seq<Byte>, g: seq<Byte>, t: seq<Byte>, coin: real)
    requires |f| >= 64 && |g| >= 64 && |t| > 0
    requires forall i :: 8 <= i < 64 ==> f[i] == g[i]
    ensures Classify(f, t, coin) == Classify(g, t, coin)
  {
    assert f[8..32] == g[8..32];
    assert f[32..64] == g[32..64];
  }

  /** A real quotient against a real bound, cross-multiplied. */
  lemma RealQuotientBelow(x: real, m: real, k: real)
    requires m > 0.0
    ensures (x / m < k) <==> x < k * m
  {
    var q := x / m;
    assert q * m == x;
    if q < k {
      assert q * m < k * m;
    } else {
      assert q * m >= k * m;
    }
  }

  /** A quotient against 1.5, cross-multiplied in integers. */
  lemma QuotientBelowHalf(a: int, n: int)
    requires n > 0
    ensures (a as real / n as real < 1.5) <==> 2 * a < 3 * n
  {
    RealQuotientBelow(a as real, n as real, 1.5);
    assert (a as real < 1.5 * n as real) <==> 2 * a < 3 * n;
  }

  /** The silence test of the tick, `volumeAvg < 1.5` over all frequency bins,
      cross-multiplied. */
  function Silent(f: seq<Byte>): (r: bool)
    requires |f| > 0
    ensures r <==> Sum(f) as real / |f| as real < 1.5
  {
    var s, n := Sum(f), |f|;
    QuotientBelowHalf(s, n);
    2 * s < 3 * n
  }
}
