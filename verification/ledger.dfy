/**
 * The money side of the paper-trading simulator: the cash/coin position, what
 * one buy, sell or hold does to it, the records the trade log receives, and
 * the final report. Money and prices are exact reals.
 */
module Ledger {
  /** Every run starts with 1000 USDT, and every return is measured against it. */
  const InitialCapital: real := 1000.0

  /** The percentage by which a portfolio value exceeds the starting capital. */
  function ReturnPct(value: real): (pct: real)
    ensures InitialCapital * (1.0 + pct / 100.0) == value
    ensures pct > 0.0 <==> value > InitialCapital
    ensures pct == 0.0 <==> value == InitialCapital
  {
    (value - InitialCapital) / InitialCapital * 100.0
  }

  datatype Action = Buy | Sell | Hold

  /** Cash (USDT) and coins held. */
  datatype Position = Position(balance: real, holdings: real)

  /** The position every run starts from. */
  const Start: Position := Position(InitialCapital, 0.0)

  /** All in or all out: exactly one of cash and coins is positive, the other is 0. */
  predicate AllInOrOut(p: Position)
  {
    || (p.balance > 0.0 && p.holdings == 0.0)
    || (p.balance == 0.0 && p.holdings > 0.0)
  }

  /** What a position is worth at a given price. */
  function Value(p: Position, price: real): real
  {
    p.balance + p.holdings * price
  }

  /**
   * The position after an action at the current close: buy converts all cash
   * into coins and sell all coins into cash, each only when there is something
   * to convert; hold leaves the position as it is. A sale sets the cash to its
   * proceeds rather than adding them, which loses nothing only because the
   * cash is 0 whenever coins are held.
   */
  function Execute(p: Position, a: Action, price: real): (q: Position)
    requires price > 0.0
    ensures AllInOrOut(p) ==> AllInOrOut(q)
    ensures a == Hold ==> q == p
    ensures a == Buy ==>
      if p.balance > 0.0 then q.balance == 0.0 && q.holdings > p.holdings else q == p
    ensures a == Sell ==>
      if p.holdings > 0.0 then q.holdings == 0.0 && q.balance > 0.0 else q == p
  {
    match a
    case Buy =>
      if p.balance > 0.0 then
        var bought := p.balance / price;
        assert bought > 0.0;
        Position(0.0, p.holdings + bought)
      else p
    case Sell =>
      if p.holdings > 0.0 then Position(p.holdings * price, 0.0) else p
    case Hold => p
  }

  /**
   * An action at the current close does not change what the position is worth
   * at that close: buying and selling only convert between cash and coins,
   * with no fees.
   */
  lemma ExecuteKeepsValue(p: Position, a: Action, price: real)
    requires price > 0.0 && AllInOrOut(p)
    ensures Value(Execute(p, a, price), price) == Value(p, price)
  {
    if a == Buy && p.balance > 0.0 {
      assert (p.balance / price) * price == p.balance;
    }
  }

  /**
   * One entry of the trade log: a buy of `qty` coins, or a sale of `qty` coins
   * with its profit or loss against the starting capital, both at `price` on
   * bar `index`.
   */
  datatype Trade =
    | Bought(index: int, price: real, qty: real)
    | Sold(index: int, price: real, qty: real, plPct: real)

  /** The entries an action at bar `index` appends to the log: one per executed trade. */
  function Records(p: Position, a: Action, index: int, price: real): (r: seq<Trade>)
    requires price > 0.0
    ensures |r| <= 1
    ensures forall t :: t in r ==> t.index == index && t.price == price && t.qty > 0.0
  {
    match a
    case Buy =>
      if p.balance > 0.0 then [Bought(index, price, p.balance / price)] else []
    case Sell =>
      if p.holdings > 0.0 then [Sold(index, price, p.holdings, ReturnPct(p.holdings * price))] else []
    case Hold => []
  }

  /** The cash a trade moves: what a buy spends or what a sale brings in. */
  function Amount(t: Trade): real
  {
    t.qty * t.price
  }

  /** An action writes a log entry exactly when it changes the position. */
  lemma RecordedIffExecuted(p: Position, a: Action, index: int, price: real)
    requires price > 0.0
    ensures Records(p, a, index, price) == [] <==> Execute(p, a, price) == p
  {
  }

  /** The coins held before entry k of the log: none, or what the entry before it bought. */
  function HeldBefore(log: seq<Trade>, k: nat): real
    requires k <= |log|
  {
    if k == 0 then 0.0 else log[k - 1].qty
  }

  /** The cash in hand before entry k of the log: the capital, or the last sale's proceeds. */
  function CashBefore(log: seq<Trade>, k: nat): real
    requires k <= |log|
  {
    if k == 0 then InitialCapital else Amount(log[k - 1])
  }

  /**
   * The shape of a log written under the all-in/all-out policy: it alternates
   * buy, sell, buy, ... starting with a buy; every buy spends all the cash in
   * hand; every sale sells what the buy before it bought and records its P/L
   * against the capital.
   */
  predicate WellFormedLog(log: seq<Trade>)
  {
    && (forall k :: 0 <= k < |log| ==> (log[k].Bought? <==> k % 2 == 0))
    && (forall k :: 0 <= k < |log| ==> log[k].price > 0.0 && log[k].qty > 0.0)
    && (forall k {:trigger CashBefore(log, k)} ::
          0 <= k < |log| && log[k].Bought? ==> Amount(log[k]) == CashBefore(log, k))
    && (forall k {:trigger HeldBefore(log, k)} ::
          0 <= k < |log| && log[k].Sold? ==> log[k].qty == HeldBefore(log, k))
    && (forall k :: 0 <= k < |log| && log[k].Sold? ==> log[k].plPct == ReturnPct(Amount(log[k])))
  }

  /** The entry that may follow a well-formed log and keep it well-formed. */
  predicate FitsAfter(log: seq<Trade>, t: Trade)
  {
    && (t.Bought? <==> |log| % 2 == 0)
    && t.price > 0.0 && t.qty > 0.0
    && (t.Bought? ==> Amount(t) == CashBefore(log, |log|))
    && (t.Sold? ==> t.qty == HeldBefore(log, |log|) && t.plPct == ReturnPct(Amount(t)))
  }

  /** Appending an entry that fits keeps a log well-formed. */
  lemma AppendKeepsWellFormed(log: seq<Trade>, t: Trade)
    requires WellFormedLog(log) && FitsAfter(log, t)
    ensures WellFormedLog(log + [t])
  {
    var log' := log + [t];
    forall k | 0 <= k <= |log|
      ensures CashBefore(log', k) == CashBefore(log, k) && HeldBefore(log', k) == HeldBefore(log, k)
    {
      if 0 < k { assert log'[k - 1] == log[k - 1]; }
    }
  }

  /**
   * How the position and the log hang together: the log is well-formed; an
   * open buy (odd length) is exactly what is held; otherwise the cash is the
   * last sale's proceeds, or the capital before any trade.
   */
  predicate Consistent(p: Position, log: seq<Trade>)
  {
    && AllInOrOut(p)
    && WellFormedLog(log)
    && (p.holdings > 0.0 <==> |log| % 2 == 1)
    && (p.holdings > 0.0 ==> p.holdings == HeldBefore(log, |log|))
    && (p.holdings == 0.0 ==> p.balance == CashBefore(log, |log|))
  }

  /** The starting position with an empty log is consistent. */
  lemma StartIsConsistent()
    ensures Consistent(Start, [])
  {
  }

  /** Every action keeps the position and the log consistent. */
  lemma ExecuteKeepsConsistent(p: Position, log: seq<Trade>, a: Action, index: int, price: real)
    requires price > 0.0 && Consistent(p, log)
    ensures Consistent(Execute(p, a, price), log + Records(p, a, index, price))
  {
    if a == Buy && p.balance > 0.0 {
      BuyKeepsConsistent(p, log, index, price);
    } else if a == Sell && p.holdings > 0.0 {
      SellKeepsConsistent(p, log, index, price);
    } else {
      assert Records(p, a, index, price) == [] && Execute(p, a, price) == p;
      assert log + [] == log;
    }
  }

  /** A buy appends a well-placed entry and moves all the cash into what it records. */
  lemma BuyKeepsConsistent(p: Position, log: seq<Trade>, index: int, price: real)
    requires price > 0.0 && Consistent(p, log) && p.balance > 0.0
    ensures Consistent(Execute(p, Buy, price), log + Records(p, Buy, index, price))
  {
    var t := Bought(index, price, p.balance / price);
    assert Records(p, Buy, index, price) == [t];
    assert Execute(p, Buy, price) == Position(0.0, t.qty);
    assert Amount(t) == p.balance by {
      assert (p.balance / price) * price == p.balance;
    }
    AppendKeepsWellFormed(log, t);
    assert HeldBefore(log + [t], |log| + 1) == t.qty;
  }

  /**
   * The entry a sale writes: all the coins held, and a P/L that is the return
   * of the cash the sale leaves, which is what the entry's amount brings in.
   */
  lemma SaleRecord(p: Position, index: int, price: real)
    requires price > 0.0 && p.holdings > 0.0
    ensures Records(p, Sell, index, price)
         == [Sold(index, price, p.holdings, ReturnPct(Execute(p, Sell, price).balance))]
    ensures Amount(Records(p, Sell, index, price)[0]) == Execute(p, Sell, price).balance
  {
    assert Execute(p, Sell, price) == Position(p.holdings * price, 0.0);
    var r := Records(p, Sell, index, price);
    assert |r| == 1;
    assert r[0].Sold?;
    assert r[0].qty == p.holdings;
    assert r[0].index == index;
    assert r[0].plPct == ReturnPct(p.holdings * price);
  }

  /** A sale appends a well-placed entry and leaves exactly its proceeds in cash. */
  lemma SellKeepsConsistent(p: Position, log: seq<Trade>, index: int, price: real)
    requires price > 0.0 && Consistent(p, log) && p.holdings > 0.0
    ensures Consistent(Execute(p, Sell, price), log + Records(p, Sell, index, price))
  {
    var t := Sold(index, price, p.holdings, ReturnPct(p.holdings * price));
    SaleRecord(p, index, price);
    assert Execute(p, Sell, price) == Position(Amount(t), 0.0);
    AppendKeepsWellFormed(log, t);
    assert CashBefore(log + [t], |log| + 1) == Amount(t);
  }

  /** A buy followed by a sale at the same close gives back the cash spent. */
  lemma BuyThenSellRestoresBalance(p: Position, price: real)
    requires price > 0.0 && p.balance > 0.0 && p.holdings == 0.0
    ensures Execute(Execute(p, Buy, price), Sell, price) == p
  {
    assert (p.balance / price) * price == p.balance;
  }

  /**
   * A buy at `bid` followed by a sale at `ask` turns the cash into cash times
   * ask/bid, and the sale's recorded P/L is that amount against the capital.
   */
  lemma RoundTripReturn(p: Position, bid: real, ask: real, i: int, j: int)
    requires bid > 0.0 && ask > 0.0 && p.balance > 0.0 && p.holdings == 0.0
    ensures Execute(Execute(p, Buy, bid), Sell, ask) == Position(p.balance * ask / bid, 0.0)
    ensures Records(Execute(p, Buy, bid), Sell, j, ask)
         == [Sold(j, ask, p.balance / bid, ReturnPct(p.balance * ask / bid))]
  {
    assert (p.balance / bid) * ask == p.balance * ask / bid;
  }

  /**
   * The report shown when a run ends: the value of the position at the
   * current close, its return against the capital, and the state it came from.
   */
  datatype Report = Report(
    finalValue: real, totalReturn: real, price: real, holdings: real, balance: real, log: seq<Trade>)

  function FinalReport(p: Position, price: real, log: seq<Trade>): (r: Report)
    ensures r.finalValue == Value(p, price) && r.totalReturn == ReturnPct(r.finalValue)
    ensures InitialCapital * (1.0 + r.totalReturn / 100.0) == p.balance + p.holdings * price
    ensures r.price == price && r.holdings == p.holdings && r.balance == p.balance && r.log == log
  {
    var finalValue := Value(p, price);
    Report(finalValue, ReturnPct(finalValue), price, p.holdings, p.balance, log)
  }

  /**
   * Ending a run out of the market reports the P/L of the last sale (or 0
   * before any trade), whatever the current close.
   */
  lemma {:induction false} FlatReportRepeatsLastSale(p: Position, log: seq<Trade>, price: real)
    requires Consistent(p, log) && p.holdings == 0.0
    ensures log == [] ==> FinalReport(p, price, log).totalReturn == 0.0
    ensures log != [] ==> log[|log| - 1].Sold? && FinalReport(p, price, log).totalReturn == log[|log| - 1].plPct
  {
    if log != [] {
      var k := |log| - 1;
      assert k % 2 == 1;
      assert p.balance == Amount(log[k]);
    }
  }
}
