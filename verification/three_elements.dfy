/**
 * The "Three Elements of Limit Up" detector: a predicate over a window of five
 * consecutive bars, and the scan that slides that window along a series.
 */
module ThreeElements {
  import opened Ohlc

  /** Every signal the scan emits is a buy point. */
  datatype SignalKind = BuyPoint

  /** A match, at the index of the last (engulfing) bar of its window. */
  datatype Signal = Signal(index: nat, kind: SignalKind)

  /** The largest high of a non-empty run of bars (pandas' `.max()`). */
  function MaxHigh(s: seq<Bar>): (m: real)
    requires |s| > 0
    ensures forall k :: 0 <= k < |s| ==> s[k].high <= m
    ensures exists k :: 0 <= k < |s| && s[k].high == m
  {
    if |s| == 1 then s[0].high
    else
      var rest := MaxHigh(s[1..]);
      if s[0].high >= rest then s[0].high else rest
  }

  /** The smallest low of a non-empty run of bars (pandas' `.min()`). */
  function MinLow(s: seq<Bar>): (m: real)
    requires |s| > 0
    ensures forall k :: 0 <= k < |s| ==> m <= s[k].low
    ensures exists k :: 0 <= k < |s| && s[k].low == m
  {
    if |s| == 1 then s[0].low
    else
      var rest := MinLow(s[1..]);
      if s[0].low <= rest then s[0].low else rest
  }

  /** Some bar of the run has a low strictly below `level` (pandas' `any(lows < level)`). */
  function AnyLowBelow(s: seq<Bar>, level: real): (r: bool)
    ensures r <==> exists k :: 0 <= k < |s| && s[k].low < level
  {
    if |s| == 0 then false
    else if s[0].low < level then true
    else
      var r := AnyLowBelow(s[1..], level);
      assert r ==> exists k :: 1 <= k < |s| && s[k].low < level by {
        if r {
          var k :| 0 <= k < |s[1..]| && s[1..][k].low < level;
          assert s[k + 1].low < level;
        }
      }
      r
  }

  /** The midpoint of a bar's range: the level the pullback must not break. */
  function HalfPosition(b: Bar): (h: real)
    ensures h - b.low == b.high - h
    ensures b.low <= b.high ==> b.low <= h <= b.high
  {
    (b.high + b.low) / 2.0
  }

  /**
   * The three rules, stated bar by bar: bar 0 closes more than 9% above its
   * open; no low of bars 1..3 lies strictly below bar 0's midpoint; bar 4 is
   * bullish and its range strictly exceeds that of every one of bars 1..3.
   */
  predicate ThreeElementsRules(w: seq<Bar>)
    requires |w| == 5
  {
    && w[0].close > w[0].open * 1.09
    && (forall k :: 1 <= k <= 3 ==> w[k].low >= (w[0].high + w[0].low) / 2.0)
    && w[4].close > w[4].open
    && (forall k :: 1 <= k <= 3 ==> w[4].high > w[k].high)
    && (forall k :: 1 <= k <= 3 ==> w[4].low < w[k].low)
  }

  /**
   * The window test as the detector performs it: the limit-up check, then the
   * half-position check over bars 1..3, then the engulfing check against the
   * max high and min low of bars 1..3, each one able to reject.
   */
  predicate IsThreeElementsPattern(w: seq<Bar>)
    requires |w| == 5
    ensures IsThreeElementsPattern(w) <==> ThreeElementsRules(w)
  {
    if !(w[0].close > w[0].open * 1.09) then false
    else if AnyLowBelow(w[1..4], HalfPosition(w[0])) then false
    else
      var mids := w[1..4];
      assert forall k :: 1 <= k <= 3 ==> w[k] == mids[k - 1];
      var last := w[4];
      last.close > last.open && last.high > MaxHigh(mids) && last.low < MinLow(mids)
  }

  /** Index `i` ends a window of five bars of the series, and that window matches. */
  predicate MatchesAt(s: seq<Bar>, i: int)
  {
    4 <= i < |s| && IsThreeElementsPattern(s[i - 4..i + 1])
  }

  /**
   * The signals the scan finds among the end indices 4 <= i < n, in the order
   * it finds them: exactly the matching indices, strictly increasing, each a
   * buy point.
   */
  function SignalsBelow(s: seq<Bar>, n: nat): (r: seq<Signal>)
    requires n <= |s|
    ensures forall j :: 0 <= j < |r| ==>
      4 <= r[j].index < n && r[j].kind == BuyPoint && MatchesAt(s, r[j].index)
    ensures forall j, k :: 0 <= j < k < |r| ==> r[j].index < r[k].index
    ensures forall i :: 4 <= i < n && MatchesAt(s, i) ==> Signal(i, BuyPoint) in r
  {
    if n <= 4 then []
    else SignalsBelow(s, n - 1) + (if MatchesAt(s, n - 1) then [Signal(n - 1, BuyPoint)] else [])
  }

  /** All the signals of a series. */
  function Signals(s: seq<Bar>): seq<Signal>
  {
    SignalsBelow(s, |s|)
  }

  /**
   * The scan: every end index from 4 up to the last bar, in order, appending a
   * buy signal whenever the window ending there matches.
   */
  method FindThreeElementsSignals(s: seq<Bar>) returns (signals: seq<Signal>)
    ensures signals == Signals(s)
    ensures |s| < 5 ==> signals == []
  {
    if |s| < 5 {
      return [];
    }
    signals := [];
    var i := 4;
    while i < |s|
      invariant 4 <= i <= |s|
      invariant signals == SignalsBelow(s, i)
    {
      if IsThreeElementsPattern(s[i - 4..i + 1]) {
        signals := signals + [Signal(i, BuyPoint)];
      }
      i := i + 1;
    }
  }

  /**
   * Scanning a prefix finds exactly the signals the full series has below the
   * prefix's end: a match never depends on a bar after its own index, so the
   * scan can run on data that stops at the current bar.
   */
  lemma {:induction false} SignalsOfPrefix(s: seq<Bar>, m: nat, n: nat)
    requires n <= m <= |s|
    ensures SignalsBelow(s[..m], n) == SignalsBelow(s, n)
  {
    if n > 4 {
      SignalsOfPrefix(s, m, n - 1);
      assert s[..m][n - 5..n] == s[n - 5..n];
    }
  }

  /** A window inside the slice [a, b) matches exactly when the same bars match in the series. */
  lemma SliceMatchesAt(s: seq<Bar>, a: nat, b: nat)
    requires a <= b <= |s|
    ensures forall i :: 4 <= i < b - a ==> (MatchesAt(s[a..b], i) <==> MatchesAt(s, a + i))
  {
    var t := s[a..b];
    forall i | 4 <= i < b - a
      ensures MatchesAt(t, i) <==> MatchesAt(s, a + i)
    {
      var inSlice, inSeries := t[i - 4..i + 1], s[a + i - 4..a + i + 1];
      forall k | 0 <= k < 5
        ensures inSlice[k] == inSeries[k]
      {
        assert t[i - 4 + k] == s[a + i - 4 + k];
      }
      assert inSlice == inSeries;
    }
  }

  /**
   * Every signal of the slice [a, b), renumbered from `a`, is a match of the
   * full series that lies inside the slice.
   */
  lemma SliceSignalsMatch(s: seq<Bar>, a: nat, b: nat)
    requires a <= b <= |s|
    ensures forall j :: 0 <= j < |Signals(s[a..b])| ==>
      4 <= Signals(s[a..b])[j].index && a + Signals(s[a..b])[j].index < b
      && MatchesAt(s, a + Signals(s[a..b])[j].index)
  {
    SliceMatchesAt(s, a, b);
  }

  /** Every match of the series whose five bars lie inside [a, b) is a signal of that slice. */
  lemma SliceSignalsComplete(s: seq<Bar>, a: nat, b: nat)
    requires a <= b <= |s|
    ensures forall i :: a + 4 <= i < b && MatchesAt(s, i) ==> Signal(i - a, BuyPoint) in Signals(s[a..b])
  {
    SliceMatchesAt(s, a, b);
    forall i | a + 4 <= i < b && MatchesAt(s, i)
      ensures Signal(i - a, BuyPoint) in Signals(s[a..b])
    {
      assert MatchesAt(s, a + (i - a));
    }
  }
}
