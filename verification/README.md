# Crypto simulator: detector and paper-trading ledger in Dafny

This project models the pattern detector, the indicators and the
paper-trading ledger of `simu.py`, a desktop paper-trading simulator for
crypto pairs. It also proves properties of that model. The user
steps through a fetched OHLC series one bar at a time, starting from 1000 USDT.
On each bar they press Buy, Sell or Hold, and the run ends on the last bar or
when they press End. The chart can mark the "Three Elements of Limit Up" buy
pattern on the bars shown.

The model has these modules:

- `Ohlc`: a bar (open, high, low, close) and the close column of a series.
- `ThreeElements`: the five-bar pattern predicate, in the detector's own
  order of early exits. Also the scan that slides it along a series, as a
  loop proved against a recursive specification.
- `Indicators`: the 20-bar rolling mean of the close (the middle Bollinger
  band) and the simple-average RSI for 13 and 42 bars. A value still warming
  up, or a NaN, is `None`.
- `Ledger`: pure money arithmetic.
  - What buy, sell and hold do to the cash/coin position.
  - The entries the trade log receives.
  - The return against the fixed 1000 USDT capital, and the final report.
  - The invariant that ties the position to the log.
- `Simulator`: the `TradingSimulator` class, whose fields the buttons update
  in place.
  - Fields: pair, timeframe, series, cursor, cash, coins, trade log, trade
    marks, and an `ended` flag that stands for the disabled buttons.
  - The start-bar rule, the chart's display window and the signals the chart
    marks.
- `Wrappers`: an `Option` type.

Money and prices are exact reals. The network fetch and the random start bar
are parameters: the methods receive the fetched bars and the drawn start index.

## Model

| member | source | states |
|---|---|---|
| ThreeElements.MaxHigh | simu.py:384 | the maximum high of bars 1..3 bounds every high and is one of them |
| ThreeElements.MinLow | simu.py:385 | the minimum low of bars 1..3 is at most every low and is one of them |
| ThreeElements.HalfPosition | simu.py:377 | the half position is equidistant from the bar's low and high, so it lies between them |
| ThreeElements.AnyLowBelow | simu.py:378 | true exactly when some bar's low lies strictly below the level |
| ThreeElements.IsThreeElementsPattern | simu.py:370-388 | the early-exit test holds iff bar 0 closes more than 9% above its open, no low of bars 1..3 is strictly below bar 0's midpoint (equal is allowed), and bar 4 is bullish with a high strictly above and a low strictly below every one of bars 1..3 |
| ThreeElements.SignalsBelow | simu.py:363-368 | the signals for end indices below n are exactly the matching windows, in strictly increasing order, each a buy point |
| ThreeElements.FindThreeElementsSignals | simu.py:363-368 | the loop returns exactly the specified signals of the series, and none when the series has fewer than 5 bars |
| ThreeElements.SignalsOfPrefix | simu.py:365-366 | scanning a prefix finds the same signals below its end as scanning the whole series: a match never looks past its own bar |
| ThreeElements.SliceMatchesAt | simu.py:366 | a window inside a slice matches exactly when the same bars match in the whole series |
| ThreeElements.SliceSignalsMatch | simu.py:244-246 | every signal of a slice, shifted by the slice start, is a match of the series inside the slice |
| ThreeElements.SliceSignalsComplete | simu.py:244-246 | every match of the series whose window lies inside the slice is a signal of the slice, renumbered from its start |
| Simulator.DisplayWindow | simu.py:243-246 | the chart shows bars [max(0, cursor-99), cursor+1): it ends at the current bar and holds min(cursor+1, 100) bars |
| Simulator.DisplayedSignals | simu.py:304-305 | the signals the chart marks are buy points, numbered within the shown bars (from 4 up to the current bar), in strictly increasing order |
| Simulator.DisplayedSignalsAreMatches | simu.py:304-306 | every "3" the chart draws is on or before the current bar and marks a match in the whole series |
| Simulator.DisplayedSignalsComplete | simu.py:304-306 | every match whose five bars are all shown is drawn |
| Simulator.TradingSimulator.ChartSignals | simu.py:244-246 | the chart runs the scan on the shown bars: its result is the displayed signals |
| Simulator.IsStartIndex | simu.py:131-137 | every start bar the rule allows is at least bar 42, and on a series of at least 44 bars leaves at least one bar to trade into |
| Simulator.TradingSimulator.constructor | simu.py:125-142 | a fresh run on BTC/USDT daily bars starts at the drawn bar (42 <= start <= len-100, or 42 when that range is empty) with 1000 USDT, no coins, no log, no marks, and satisfies the invariant |
| Simulator.TradingSimulator.ActionClicked | simu.py:204-226 | the position becomes the executed action and the log and marks gain that action's records; the cursor moves by exactly one; the run ends and reports exactly when the new cursor reaches len-1; the invariant is kept; a click on a disabled run changes nothing |
| Simulator.TradingSimulator.EndSimulation | simu.py:147-171 | reports the current state and disables trading; nothing else changes |
| Simulator.TradingSimulator.CurrentReport | simu.py:151-155 | the final value is cash plus coins at the current close, and the total return is that value's return against 1000 |
| Simulator.TradingSimulator.ChangeTradingPair | simu.py:173-196 | full reset: new pair and series, start bar in the drawn range, 1000 USDT, no coins, empty log and marks, trading re-enabled |
| Simulator.TradingSimulator.ChangeTimeframe | simu.py:228-235 | partial reset: new timeframe and series, cursor at len-100, marks cleared; cash, coins, log and the ended flag carry over, and the invariant still holds |
| Simulator.ActionKeepsInvariant | simu.py:208-223 | a click on an active run keeps the invariant: the position stays consistent with the log, and the marks follow the log on increasing bars before the cursor |
| Simulator.MarksStayBeforeCursor | simu.py:213-221 | marks appended on the current bar keep all marks strictly increasing and before the next bar |
| Simulator.MarkOf | simu.py:213-219 | a trade's mark sits on the trade's bar and reads B exactly for a buy |
| Simulator.MarksOf | simu.py:213-219 | the marks of a run of trades are their marks one by one, in order |
| Simulator.MarksFollowLog | simu.py:212-219 | appending records together with their marks keeps the marks equal to the marks of the latest log entries |
| Ledger.ReturnPct | simu.py:216 | the percentage p satisfies 1000*(1+p/100) = value, and is positive (zero) exactly when the value exceeds (equals) 1000 |
| Ledger.Execute | simu.py:208-219 | buy with cash turns all of it into coins and leaves no cash; sell with coins turns them into cash and leaves no coins; hold, or a buy without cash, or a sell without coins, changes nothing; all-in/all-out is kept |
| Ledger.ExecuteKeepsValue | simu.py:209-215 | an all-in/all-out position is worth the same at the trade's close before and after any action |
| Ledger.Records | simu.py:212-217 | an action appends at most one entry, on the current bar, at the current close, with a positive quantity |
| Ledger.RecordedIffExecuted | simu.py:208-219 | an action writes a log entry exactly when it changes the position |
| Ledger.AppendKeepsWellFormed | simu.py:212-217 | appending an entry that fits keeps the log alternating buy/sell, each buy spending all the cash and each sale selling what was bought, with P/L against 1000 |
| Ledger.StartIsConsistent | simu.py:139-142 | 1000 USDT, no coins and an empty log are consistent |
| Ledger.ExecuteKeepsConsistent | simu.py:208-219 | every action keeps the position consistent with the extended log |
| Ledger.BuyKeepsConsistent | simu.py:208-213 | a buy with cash keeps position and log consistent |
| Ledger.SellKeepsConsistent | simu.py:214-219 | a sale with coins keeps position and log consistent |
| Ledger.SaleRecord | simu.py:215-217 | the entry a sale writes sells all the coins held at the close, and its P/L is the return against 1000 of the cash the sale leaves, which equals the entry's amount |
| Ledger.BuyThenSellRestoresBalance | simu.py:208-219 | a buy followed by a sale at the same close gives back the cash |
| Ledger.RoundTripReturn | simu.py:208-219 | a buy at one close and a sale at another multiply the cash by their ratio, and the sale records that amount's return against 1000, not against the cost |
| Ledger.FinalReport | simu.py:151-155 | the final value is the position's value at the close, the total return r is its return and satisfies 1000*(1+r/100) = cash + coins*close, and the report carries the state it came from |
| Ledger.FlatReportRepeatsLastSale | simu.py:151-155 | ending a run with no coins reports the last sale's P/L (or 0 with no trade), whatever the current close |
| Indicators.SumBounds | simu.py:32 | a sum of values in [lo, hi] lies in [n*lo, n*hi] |
| Indicators.MiddleBand | simu.py:32 | the 20-bar mean of the close exists exactly from bar 19 on |
| Indicators.MiddleBandRolling | simu.py:32 | 20 times the first band is the sum of closes 0..19, and 20 times each step of the band is the close entering the window minus the close leaving it |
| Indicators.MiddleBandWithinWindow | simu.py:32 | the middle band lies between the lowest and the highest close of its window |
| Indicators.Gain | simu.py:39-40 | the gain into a bar is never negative |
| Indicators.Loss | simu.py:39-41 | the loss into a bar is never negative |
| Indicators.GainMinusLoss | simu.py:39-41 | gain minus loss is the move of the close, and one of the two is 0 |
| Indicators.SumGains | simu.py:40 | a window's total gain is never negative |
| Indicators.SumLosses | simu.py:41 | a window's total loss is never negative |
| Indicators.RsiFromMeans | simu.py:42-43 | the RSI lies in [0, 100]; it is 100 exactly when there is a gain and no loss, and undefined exactly when there is neither |
| Indicators.Rsi | simu.py:38-43 | the p-bar RSI is defined only from bar p-1 on, lies in [0, 100], is 100 exactly for a window with gains and no losses, and is undefined for a flat window |
| Indicators.RsiIsShareOfGain | simu.py:38-43 | whenever the RSI is defined it equals 100*G/(G+L) for the window's total gain G and loss L |
| Indicators.MeansGiveShareOfGain | simu.py:42-43 | the RSI of two means over the same period is the share of gain in the total movement |
| Indicators.RsiAlgebra | simu.py:42-43 | 100 - 100/(1 + (g/n)/(l/n)) equals 100*g/(g+l) |
| Indicators.FlatSums | simu.py:39-41 | over bars whose close does not move, total gain and total loss are 0 |
| Indicators.FlatSeriesHasNoRsi | simu.py:38-43 | a series whose close never moves has no RSI at any bar |
| Indicators.CalculateIndicators | simu.py:30-48 | one row per bar, holding that bar's middle band, RSI-13 and RSI-42; the middle band exists exactly from bar 19 on, each RSI only after its warm-up, and each RSI lies in [0, 100] |
| Ohlc.Closes | simu.py:45-46 | the close column has one entry per bar, holding that bar's close |

## Notes on the source

- RSI warm-up. `diff()` leaves bar 0 without a move, but `where(delta > 0, 0)`
  and `where(delta < 0, 0)` turn that NaN into 0. So the p-bar RSI is first
  defined at bar p-1, not at bar p. `Indicators.Rsi` follows the code.
- Series length. With 43 bars, start bar 42 is the last bar. The first click
  then moves the cursor to bar 43 and reads past the end when the final
  report prices the holdings. The constructor and `ChangeTradingPair`
  therefore require at least 44 bars.
- `ChangeTimeframe` requires at least 100 bars, so the new cursor `len - 100`
  is a bar of the series. With fewer bars the cursor is negative, and Python's
  negative indexing makes it count from the end. See "Left out".
- Positive closes. Every buy divides by the close. Every method that loads a
  series requires all closes to be positive.

## Left out

- Fetching bars from the exchange, and the timestamp index with its time-zone
  conversion: network I/O, replaced by a `bars` parameter. A failed fetch is
  not modelled either: the source stores the new pair (simu.py:174) or
  timeframe (simu.py:229) before it fetches, so a fetch that raises leaves the
  new name beside the old series, cursor and ledger, while the model's resets
  always complete.
- `random.randint` for the start bar: the drawn index is a parameter, constrained by `IsStartIndex`.
- Qt widgets, signal wiring and `start_animation`: user interface. The enabled
  state of the four trading buttons is the single `ended` flag, and a disabled
  click is a no-op.
- `update_chart` drawing, candle widths, date axes and the mark-annotation
  filter, and `update_info` text: rendering. Only the display window and the
  signal scan it runs are modelled.
- The Bollinger standard deviation and the upper and lower bands: they need a square root.
- Floating point: prices and money are exact reals. Rounding, `inf` and NaN are
  modelled only where they decide a value: no loss gives RSI 100, a flat
  window gives `None`.
- The `:.2f` text of log lines: the log holds records (side, bar, price,
  quantity, P/L) instead of formatted strings.
- Simulator.TradingSimulator.ChangeTimeframe: series of fewer than 100 bars
  are not modelled. There the source sets the negative cursor `len - 100`, and
  Python's negative indexing gives it a meaning that depends on the length.
  - For 50 <= len <= 98, the info panel reads bar `2*len - 100` and the chart
    shows bars `[0, 2*len - 99)`. The run goes on until the cursor reaches -1.
    There the chart slice ends at 0 and is empty, and reading its last
    timestamp raises IndexError.
  - With len = 99, or len < 50, it fails at once.

  The model's cursor is always a bar of the series.
- Simulator.TradingSimulator.constructor: series of at most 43 bars are not
  modelled. There the start bar 42 is the last bar or beyond it. The source
  then reads past the end of the series, either already in the first info
  panel or in the report after the first click.
- Simulator.TradingSimulator.ChangeTradingPair: series of at most 43 bars are
  not modelled, for the same reason as the constructor.
- Simulator.TradingSimulator.ActionClicked: the buy and sell branches are applied
  through `Ledger.Execute` and `Ledger.Records`. Those functions hold the
  branches' arithmetic and are cited to them. The method does not update the
  two fields one statement at a time, as the source does.
