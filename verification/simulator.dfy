/**
 * The paper-trading simulator: a series of bars, a cursor on the current bar,
 * a cash/coin position, the trade log and the chart's trade marks, and the
 * "ended" flag that stands for the disabled trading buttons.
 */
module Simulator {
  import opened Wrappers
  import opened Ohlc
  import opened Ledger
  import opened ThreeElements

  /** The earliest start bar: the 42-bar RSI needs that much history. */
  const MinStart: int := 42

  /** The number of bars the chart shows, ending at the current bar. */
  const DisplayCount: int := 100

  /**
   * The start bars a fresh run may draw for a series of n bars: uniformly
   * from [42, n - 100] when that range has more than one bar, else bar 42.
   */
  predicate IsStartIndex(n: int, start: int)
    ensures IsStartIndex(n, start) ==> MinStart <= start
    ensures IsStartIndex(n, start) && n > MinStart + 1 ==> start <= n - 2
  {
    if n - DisplayCount > MinStart then MinStart <= start <= n - DisplayCount else start == MinStart
  }

  /** Bars [start, end) of the series, as the chart slices them. */
  datatype Window = Window(start: int, end: int)

  /**
   * The bars the chart shows: the last 100 up to and including the current
   * bar, or all of them from bar 0 while fewer exist.
   */
  function DisplayWindow(cursor: int): (w: Window)
    requires cursor >= 0
    ensures 0 <= w.start <= cursor < w.end == cursor + 1
    ensures w.end - w.start == if cursor + 1 < DisplayCount then cursor + 1 else DisplayCount
  {
    var start := cursor - DisplayCount + 1;
    Window(if start > 0 then start else 0, cursor + 1)
  }

  /**
   * The buy points the chart marks with "3": the signals of the shown bars,
   * numbered from the window's first bar.
   */
  function DisplayedSignals(series: seq<Bar>, cursor: int): (r: seq<Signal>)
    requires 0 <= cursor < |series|
    ensures forall j :: 0 <= j < |r| ==> r[j].kind == BuyPoint && 4 <= r[j].index <= cursor - DisplayWindow(cursor).start
    ensures forall j, k :: 0 <= j < k < |r| ==> r[j].index < r[k].index
  {
    Signals(series[DisplayWindow(cursor).start..cursor + 1])
  }

  /** Every displayed signal lies on or before the current bar and is a match in the whole series. */
  lemma DisplayedSignalsAreMatches(series: seq<Bar>, cursor: int)
    requires 0 <= cursor < |series|
    ensures var r, start := DisplayedSignals(series, cursor), DisplayWindow(cursor).start;
      forall j :: 0 <= j < |r| ==>
        && 4 <= r[j].index && start + r[j].index <= cursor
        && MatchesAt(series, start + r[j].index)
  {
    SliceSignalsMatch(series, DisplayWindow(cursor).start, cursor + 1);
  }

  /** Every match in the series whose five bars are all shown is displayed. */
  lemma DisplayedSignalsComplete(series: seq<Bar>, cursor: int)
    requires 0 <= cursor < |series|
    ensures var r, start := DisplayedSignals(series, cursor), DisplayWindow(cursor).start;
      forall i :: start + 4 <= i <= cursor && MatchesAt(series, i) ==> Signal(i - start, BuyPoint) in r
  {
    SliceSignalsComplete(series, DisplayWindow(cursor).start, cursor + 1);
  }

  /** The letter the chart writes on a trade's bar. */
  datatype MarkLabel = B | S

  datatype Mark = Mark(index: int, side: MarkLabel)

  /** The chart mark of a log entry. */
  function MarkOf(t: Trade): (m: Mark)
    ensures m.index == t.index
    ensures m.side == B <==> t.Bought?
  {
    match t
    case Bought(i, _, _) => Mark(i, B)
    case Sold(i, _, _, _) => Mark(i, S)
  }

  function MarksOf(log: seq<Trade>): (marks: seq<Mark>)
    ensures |marks| == |log|
    ensures forall j :: 0 <= j < |log| ==> marks[j] == MarkOf(log[j])
  {
    seq(|log|, j requires 0 <= j < |log| => MarkOf(log[j]))
  }

  class TradingSimulator {
    var symbol: string
    var timeframe: string
    var series: seq<Bar>
    var cursor: int
    var balance: real
    var holdings: real
    var tradeLog: seq<Trade>
    var tradeMarks: seq<Mark>
    var ended: bool

    /** The state satisfies the simulator's invariant. */
    ghost predicate Valid()
      reads this
    {
      Invariant(series, cursor, ended, Holding(), tradeLog, tradeMarks)
    }

    /** The cash and coins held. */
    function Holding(): Position
      reads this
    {
      Position(balance, holdings)
    }

    /** The final report on the current state, priced at the current bar's close. */
    function CurrentReport(): (r: Report)
      reads this
      requires 0 <= cursor < |series|
      ensures r.finalValue == balance + holdings * series[cursor].close
      ensures r.totalReturn == ReturnPct(r.finalValue) && r.log == tradeLog
    {
      FinalReport(Holding(), series[cursor].close, tradeLog)
    }

    /**
     * A fresh simulator on BTC/USDT daily bars: `bars` is the fetched series
     * and `start` the randomly drawn start bar.
     */
    constructor (bars: seq<Bar>, start: int)
      requires PositiveCloses(bars) && |bars| > MinStart + 1 && IsStartIndex(|bars|, start)
      ensures Valid()
      ensures symbol == "BTC/USDT" && timeframe == "1d" && series == bars
      ensures cursor == start && MinStart <= cursor <= |bars| - 2
      ensures Holding() == Start && tradeLog == [] && tradeMarks == [] && !ended
    {
      symbol := "BTC/USDT";
      timeframe := "1d";
      series := bars;
      cursor := start;
      balance := InitialCapital;
      holdings := 0.0;
      tradeLog := [];
      tradeMarks := [];
      ended := false;
    }

    /**
     * The End button: show the final report and disable trading. With the
     * buttons already disabled the click does nothing.
     */
    method EndSimulation() returns (report: Option<Report>)
      requires Valid()
      modifies this
      ensures Valid() && ended
      ensures report == if old(ended) then None else Some(CurrentReport())
      ensures symbol == old(symbol) && timeframe == old(timeframe) && series == old(series)
      ensures cursor == old(cursor) && Holding() == old(Holding())
      ensures tradeLog == old(tradeLog) && tradeMarks == old(tradeMarks)
    {
      if ended {
        return None;
      }
      report := Some(CurrentReport());
      ended := true;
    }

    /**
     * The Buy, Sell and Hold buttons: trade at the current close (buy only
     * with cash in hand, sell only with coins held), log the trade and mark
     * its bar, then move to the next bar; reaching the last bar ends the run
     * and shows the final report. With the buttons disabled the click does
     * nothing.
     */
    method ActionClicked(a: Action) returns (report: Option<Report>)
      requires Valid()
      modifies this
      ensures Valid()
      ensures old(ended) ==> report == None && unchanged(this)
      ensures !old(ended) ==>
        && Holding() == Execute(old(Holding()), a, old(series[cursor].close))
        && tradeLog == old(tradeLog) + Records(old(Holding()), a, old(cursor), old(series[cursor].close))
        && tradeMarks == old(tradeMarks) + MarksOf(Records(old(Holding()), a, old(cursor), old(series[cursor].close)))
        && cursor == old(cursor) + 1
        && (ended <==> cursor >= |series| - 1)
        && report == (if ended then Some(CurrentReport()) else None)
        && symbol == old(symbol) && timeframe == old(timeframe) && series == old(series)
    {
      if ended {
        return None;
      }
      var price := series[cursor].close;
      var held := Holding();
      var next := Execute(held, a, price);
      var records := Records(held, a, cursor, price);
      ActionKeepsInvariant(series, cursor, held, tradeLog, tradeMarks, a);
      balance, holdings := next.balance, next.holdings;
      tradeLog := tradeLog + records;
      tradeMarks := tradeMarks + MarksOf(records);
      cursor := cursor + 1;
      ended := cursor >= |series| - 1;
      report := if ended then Some(CurrentReport()) else None;
    }

    /**
     * Switching to another trading pair: `bars` is the pair's fetched series
     * and `start` the randomly drawn start bar. Everything restarts: the
     * capital, an empty log, no marks, trading enabled again.
     */
    method ChangeTradingPair(newPair: string, bars: seq<Bar>, start: int)
      requires PositiveCloses(bars) && |bars| > MinStart + 1 && IsStartIndex(|bars|, start)
      modifies this
      ensures Valid()
      ensures symbol == newPair && timeframe == old(timeframe) && series == bars
      ensures cursor == start && MinStart <= cursor <= |bars| - 2
      ensures Holding() == Start && tradeLog == [] && tradeMarks == [] && !ended
    {
      symbol := newPair;
      series := bars;
      cursor := start;
      balance := InitialCapital;
      holdings := 0.0;
      tradeLog := [];
      tradeMarks := [];
      ended := false;
    }

    /**
     * Switching to another timeframe: `bars` is the fetched series. Only the
     * cursor (100 bars before the end) and the marks are reset; the cash,
     * coins, log and the ended flag carry over.
     */
    method ChangeTimeframe(newTimeframe: string, bars: seq<Bar>)
      requires Valid() && PositiveCloses(bars) && |bars| >= DisplayCount
      modifies this
      ensures Valid()
      ensures timeframe == newTimeframe && series == bars && cursor == |bars| - DisplayCount && tradeMarks == []
      ensures symbol == old(symbol) && Holding() == old(Holding()) && tradeLog == old(tradeLog) && ended == old(ended)
    {
      timeframe := newTimeframe;
      series := bars;
      cursor := |series| - DisplayCount;
      tradeMarks := [];
    }

    /** The scan the chart runs over the shown bars when the "3" option is on. */
    method ChartSignals() returns (signals: seq<Signal>)
      requires 0 <= cursor < |series|
      ensures signals == DisplayedSignals(series, cursor)
    {
      var w := DisplayWindow(cursor);
      signals := FindThreeElementsSignals(series[w.start..cursor + 1]);
    }
  }

  /**
   * The simulator's invariant over its state: the cursor is on a bar of the
   * series, and while the run is active it is not yet on the last bar; the
   * position and the log are consistent (all in or all out); the marks are the
   * chart marks of the latest log entries, on strictly increasing bars before
   * the current one.
   */
  predicate Invariant(series: seq<Bar>, cursor: int, ended: bool, p: Position, log: seq<Trade>, marks: seq<Mark>)
  {
    && PositiveCloses(series)
    && 0 <= cursor < |series|
    && (!ended ==> cursor < |series| - 1)
    && Consistent(p, log)
    && MarksTrail(marks, log)
    && MarksBefore(marks, cursor)
  }

  /**
   * A trading click on an active run keeps the invariant: the position is
   * executed at the current close, its records and their marks are appended,
   * the cursor moves on, and the run ends on reaching the last bar.
   */
  lemma ActionKeepsInvariant(series: seq<Bar>, cursor: int, p: Position, log: seq<Trade>, marks: seq<Mark>, a: Action)
    requires Invariant(series, cursor, false, p, log, marks)
    ensures var price := series[cursor].close;
      var records := Records(p, a, cursor, price);
      Invariant(series, cursor + 1, cursor + 1 >= |series| - 1,
                Execute(p, a, price), log + records, marks + MarksOf(records))
  {
    var price := series[cursor].close;
    ExecuteKeepsConsistent(p, log, a, cursor, price);
    MarksFollowLog(marks, log, Records(p, a, cursor, price));
    MarksStayBeforeCursor(marks, Records(p, a, cursor, price), cursor);
  }

  /** The marks lie on strictly increasing bars, all before bar `cursor`. */
  predicate MarksBefore(marks: seq<Mark>, cursor: int)
  {
    && (forall j :: 0 <= j < |marks| ==> marks[j].index < cursor)
    && (forall j, k :: 0 <= j < k < |marks| ==> marks[j].index < marks[k].index)
  }

  /**
   * Marks of entries written on the current bar come after every earlier mark
   * and before the next bar.
   */
  lemma MarksStayBeforeCursor(marks: seq<Mark>, records: seq<Trade>, cursor: int)
    requires MarksBefore(marks, cursor)
    requires |records| <= 1 && forall t :: t in records ==> t.index == cursor
    ensures MarksBefore(marks + MarksOf(records), cursor + 1)
  {
    if records != [] {
      assert records[0] in records;
    }
  }

  /** The marks are the chart marks of the last |marks| entries of the log. */
  predicate MarksTrail(marks: seq<Mark>, log: seq<Trade>)
  {
    && |marks| <= |log|
    && forall j :: 0 <= j < |marks| ==> marks[j] == MarkOf(log[|log| - |marks| + j])
  }

  /**
   * Appending log entries together with their marks keeps the marks equal to
   * the marks of the log's latest entries.
   */
  lemma MarksFollowLog(marks: seq<Mark>, log: seq<Trade>, records: seq<Trade>)
    requires MarksTrail(marks, log)
    ensures MarksTrail(marks + MarksOf(records), log + records)
  {
    var marks', log' := marks + MarksOf(records), log + records;
    forall j | 0 <= j < |marks'|
      ensures marks'[j] == MarkOf(log'[|log'| - |marks'| + j])
    {
      if j < |marks| {
        assert log'[|log'| - |marks'| + j] == log[|log| - |marks| + j];
      }
    }
  }
}
