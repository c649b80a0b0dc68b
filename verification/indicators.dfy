/**
 * The indicator columns computed for every fetched series: the 20-bar rolling
 * mean of the close (the middle Bollinger band) and the simple-average RSI for
 * 13 and 42 bars. A value still warming up is `None`, as pandas gives NaN.
 */
module Indicators {
  import opened Wrappers
  import opened Ohlc

  const BandWindow: nat := 20
  const ShortRsi: nat := 13
  const LongRsi: nat := 42

  /** The sum of a run of values. */
  function Sum(s: seq<real>): real
  {
    if s == [] then 0.0 else s[0] + Sum(s[1..])
  }

  /** A sum of values that all lie in [lo, hi] lies in [|s|*lo, |s|*hi]. */
  lemma {:induction false} SumBounds(s: seq<real>, lo: real, hi: real)
    requires forall k :: 0 <= k < |s| ==> lo <= s[k] <= hi
    ensures |s| as real * lo <= Sum(s) <= |s| as real * hi
  {
    if s != [] {
      SumBounds(s[1..], lo, hi);
    }
  }

  /** The middle band at bar i: the mean of the 20 closes ending at i, once 20 exist. */
  function MiddleBand(closes: seq<real>, i: nat): (m: Option<real>)
    requires i < |closes|
    ensures m.Some? <==> i >= BandWindow - 1
  {
    if i + 1 < BandWindow then None
    else Some(Sum(closes[i + 1 - BandWindow..i + 1]) / BandWindow as real)
  }

  /**
   * The middle band lies between the lowest and the highest close of its
   * window; in particular a constant window gives back that constant.
   */
  lemma MiddleBandWithinWindow(closes: seq<real>, i: nat, lo: real, hi: real)
    requires BandWindow - 1 <= i < |closes|
    requires forall k :: i + 1 - BandWindow <= k <= i ==> lo <= closes[k] <= hi
    ensures lo <= MiddleBand(closes, i).value <= hi
  {
    var w := closes[i + 1 - BandWindow..i + 1];
    assert forall k :: 0 <= k < |w| ==> w[k] == closes[i + 1 - BandWindow + k];
    SumBounds(w, lo, hi);
  }

  /** Appending a value adds it to the sum. */
  lemma {:induction false} SumAppend(s: seq<real>, x: real)
    ensures Sum(s + [x]) == Sum(s) + x
  {
    if s != [] {
      assert (s + [x])[1..] == s[1..] + [x];
      SumAppend(s[1..], x);
    }
  }

  /**
   * The first middle band is the mean of closes 0..19, and each later band
   * moves by a twentieth of the close entering the window minus the close
   * leaving it: together these pin every band to the rolling mean.
   */
  lemma MiddleBandRolling(closes: seq<real>, i: nat)
    requires BandWindow - 1 <= i && i + 1 < |closes|
    ensures BandWindow as real * MiddleBand(closes, BandWindow - 1).value == Sum(closes[..BandWindow])
    ensures BandWindow as real * (MiddleBand(closes, i + 1).value - MiddleBand(closes, i).value)
         == closes[i + 1] - closes[i + 1 - BandWindow]
  {
    assert closes[0..BandWindow] == closes[..BandWindow];
    var lo := i + 1 - BandWindow;
    var w := closes[lo..i + 2];
    assert w[1..] == closes[lo + 1..i + 2];
    assert w == closes[lo..i + 1] + [closes[i + 1]];
    SumAppend(closes[lo..i + 1], closes[i + 1]);
  }

  /** The gain into bar j: the rise of the close, 0 when it did not rise and at bar 0. */
  function Gain(closes: seq<real>, j: nat): (g: real)
    requires j < |closes|
    ensures g >= 0.0
  {
    if j > 0 && closes[j] - closes[j - 1] > 0.0 then closes[j] - closes[j - 1] else 0.0
  }

  /** The loss into bar j: the fall of the close, 0 when it did not fall and at bar 0. */
  function Loss(closes: seq<real>, j: nat): (l: real)
    requires j < |closes|
    ensures l >= 0.0
  {
    if j > 0 && closes[j] - closes[j - 1] < 0.0 then -(closes[j] - closes[j - 1]) else 0.0
  }

  /** A bar never has both a gain and a loss, and the two give back the move of the close. */
  lemma GainMinusLoss(closes: seq<real>, j: nat)
    requires 0 < j < |closes|
    ensures Gain(closes, j) - Loss(closes, j) == closes[j] - closes[j - 1]
    ensures Gain(closes, j) == 0.0 || Loss(closes, j) == 0.0
  {
  }

  /** The total gain over bars lo..hi-1. */
  function SumGains(closes: seq<real>, lo: nat, hi: nat): (r: real)
    requires lo <= hi <= |closes|
    ensures r >= 0.0
    decreases hi - lo
  {
    if lo == hi then 0.0 else Gain(closes, lo) + SumGains(closes, lo + 1, hi)
  }

  /** The total loss over bars lo..hi-1. */
  function SumLosses(closes: seq<real>, lo: nat, hi: nat): (r: real)
    requires lo <= hi <= |closes|
    ensures r >= 0.0
    decreases hi - lo
  {
    if lo == hi then 0.0 else Loss(closes, lo) + SumLosses(closes, lo + 1, hi)
  }

  /**
   * The RSI from a mean gain g and a mean loss l: 100 - 100/(1 + g/l). With
   * no loss the floating-point division gives infinity and so 100 when g > 0,
   * and NaN when g is 0 as well: the window did not move.
   */
  function RsiFromMeans(g: real, l: real): (r: Option<real>)
    requires g >= 0.0 && l >= 0.0
    ensures r.Some? ==> 0.0 <= r.value <= 100.0
    ensures r.Some? && r.value == 100.0 <==> l == 0.0 && g > 0.0
    ensures r.None? <==> l == 0.0 && g == 0.0
  {
    if l == 0.0 then (if g > 0.0 then Some(100.0) else None)
    else
      var rs := g / l;
      assert 100.0 / (1.0 + rs) > 0.0;
      assert 100.0 / (1.0 + rs) <= 100.0 by {
        assert 1.0 + rs >= 1.0;
      }
      Some(100.0 - 100.0 / (1.0 + rs))
  }

  /**
   * The simple-average RSI of period p at bar i, from the mean gain and the
   * mean loss of the p bars ending at i; undefined until p bars exist.
   */
  function Rsi(closes: seq<real>, p: nat, i: nat): (r: Option<real>)
    requires 0 < p && i < |closes|
    ensures r.Some? ==> i + 1 >= p && 0.0 <= r.value <= 100.0
    ensures r.Some? && r.value == 100.0 <==>
      p <= i + 1 && SumLosses(closes, i + 1 - p, i + 1) == 0.0 && SumGains(closes, i + 1 - p, i + 1) > 0.0
    ensures r.None? <==>
      i + 1 < p || (SumLosses(closes, i + 1 - p, i + 1) == 0.0 && SumGains(closes, i + 1 - p, i + 1) == 0.0)
  {
    if i + 1 < p then None
    else
      var n := p as real;
      RsiFromMeans(SumGains(closes, i + 1 - p, i + 1) / n, SumLosses(closes, i + 1 - p, i + 1) / n)
  }

  /**
   * Whenever it is defined, the RSI is the share of the window's total gain in
   * its total movement, 100 * G / (G + L): the division by the period cancels.
   */
  lemma RsiIsShareOfGain(closes: seq<real>, p: nat, i: nat)
    requires 0 < p && p <= i + 1 < |closes| + 1
    requires SumGains(closes, i + 1 - p, i + 1) + SumLosses(closes, i + 1 - p, i + 1) > 0.0
    ensures Rsi(closes, p, i) ==
      Some(100.0 * SumGains(closes, i + 1 - p, i + 1)
           / (SumGains(closes, i + 1 - p, i + 1) + SumLosses(closes, i + 1 - p, i + 1)))
  {
    var gs, ls := SumGains(closes, i + 1 - p, i + 1), SumLosses(closes, i + 1 - p, i + 1);
    MeansGiveShareOfGain(gs, ls, p as real);
  }

  /** RsiFromMeans of two totals divided by the same period is 100*G/(G+L). */
  lemma MeansGiveShareOfGain(gs: real, ls: real, n: real)
    requires gs >= 0.0 && ls >= 0.0 && gs + ls > 0.0 && n > 0.0
    ensures RsiFromMeans(gs / n, ls / n) == Some(100.0 * gs / (gs + ls))
  {
    if ls == 0.0 {
      assert ls / n == 0.0;
      assert gs / n > 0.0;
      assert 100.0 * gs / (gs + ls) == 100.0;
    } else {
      assert ls / n > 0.0;
      RsiAlgebra(gs, ls, n);
    }
  }

  /** 100 - 100/(1 + (g/n)/(l/n)) simplifies to 100*g/(g+l). */
  lemma RsiAlgebra(g: real, l: real, n: real)
    requires g >= 0.0 && l > 0.0 && n > 0.0
    ensures 100.0 - 100.0 / (1.0 + (g / n) / (l / n)) == 100.0 * g / (g + l)
  {
    assert (g / n) / (l / n) == g / l;
    var q := g / l;
    assert q * l == g;
    var d := 1.0 + q;
    assert d * l == l + g;
    var e := 100.0 / d;
    assert e * d == 100.0;
    assert e * (l + g) == 100.0 * l by {
      assert e * (l + g) == e * (d * l) == (e * d) * l;
    }
    var r := 100.0 - e;
    assert r * (g + l) == 100.0 * g;
    assert r == 100.0 * g / (g + l);
  }

  /** Over bars whose close does not move, the total gain and the total loss are 0. */
  lemma {:induction false} FlatSums(closes: seq<real>, lo: nat, hi: nat)
    requires lo <= hi <= |closes|
    requires forall k :: lo <= k < hi && 0 < k ==> closes[k] == closes[k - 1]
    ensures SumGains(closes, lo, hi) == 0.0 && SumLosses(closes, lo, hi) == 0.0
    decreases hi - lo
  {
    if lo < hi {
      FlatSums(closes, lo + 1, hi);
    }
  }

  /** A series whose close never moves has no RSI at any bar: every window is flat. */
  lemma FlatSeriesHasNoRsi(closes: seq<real>, p: nat, i: nat)
    requires 0 < p && i < |closes|
    requires forall k :: 0 < k < |closes| ==> closes[k] == closes[k - 1]
    ensures Rsi(closes, p, i) == None
  {
    if p <= i + 1 {
      FlatSums(closes, i + 1 - p, i + 1);
    }
  }

  /** The derived columns of one bar. */
  datatype IndicatorRow = IndicatorRow(middleBand: Option<real>, rsi13: Option<real>, rsi42: Option<real>)

  /** One row of indicators per bar, at the same index. */
  function CalculateIndicators(s: seq<Bar>): (rows: seq<IndicatorRow>)
    ensures |rows| == |s|
    ensures forall i :: 0 <= i < |s| ==>
      rows[i] == IndicatorRow(MiddleBand(Closes(s), i), Rsi(Closes(s), ShortRsi, i), Rsi(Closes(s), LongRsi, i))
    ensures forall i :: 0 <= i < |s| ==>
      && (rows[i].middleBand.Some? <==> i >= BandWindow - 1)
      && (rows[i].rsi13.Some? ==> i >= ShortRsi - 1)
      && (rows[i].rsi42.Some? ==> i >= LongRsi - 1)
      && (rows[i].rsi13.Some? ==> 0.0 <= rows[i].rsi13.value <= 100.0)
      && (rows[i].rsi42.Some? ==> 0.0 <= rows[i].rsi42.value <= 100.0)
  {
    var closes := Closes(s);
    seq(|s|, i requires 0 <= i < |s| =>
      IndicatorRow(MiddleBand(closes, i), Rsi(closes, ShortRsi, i), Rsi(closes, LongRsi, i)))
  }
}
