/**
 Average-cost accounting: what a fill does to a signed position and to an account,
 and the laws that tie cash, average cost and realized profit together.
 */
module Accounting {
  import opened Types
  import opened Sums

  // ---------- one signed position ----------

  datatype Holding = Holding(netQty: real, avgPrice: real, realizedPnl: real)

  const FLAT := Holding(0.0, 0.0, 0.0)

  ghost predicate FlatCostsNothing(p: Holding) {
    p.netQty == 0.0 ==> p.avgPrice == 0.0
  }

  predicate Opens(net: real, signed: real) {
    net == 0.0 || ((net > 0.0) == (signed > 0.0))
  }

  /** The average price once `signed` more has been opened at `price`. */
  function BlendedAverage(avg: real, net: real, price: real, signed: real): real
    requires signed != 0.0 && Opens(net, signed)
  {
    (avg * Abs(net) + price * Abs(signed)) / Abs(net + signed)
  }

  /** What closing as much of the position as the fill can is worth over its average. */
  function ClosingGain(p: Holding, f: Fill): real {
    var closed := Min(Abs(f.Signed()), Abs(p.netQty));
    var dir := if p.netQty > 0.0 then 1.0 else -1.0;
    (f.price - p.avgPrice) * closed * dir
  }

  function HoldingAfter(p: Holding, f: Fill): Holding
    requires f.qty > 0.0
  {
    var signed := f.Signed();
    var net := p.netQty + signed;
    if Opens(p.netQty, signed) then
      Holding(net, BlendedAverage(p.avgPrice, p.netQty, f.price, signed), p.realizedPnl)
    else
      var avg := if net == 0.0 then 0.0
                 else if Abs(signed) > Abs(p.netQty) then f.price
                 else p.avgPrice;
      Holding(net, avg, p.realizedPnl + ClosingGain(p, f))
  }

  /**
   The average-cost discipline, stated without computing the average: what was realized, less
   the cost of what is still open, moves by exactly the cash of the fill; nothing is realized
   while a position grows, and the average is only touched when something opens.
   */
  ghost predicate AverageCostStep(p: Holding, f: Fill, p': Holding) {
    var signed := f.Signed();
    && p'.netQty == p.netQty + signed
    && p'.realizedPnl - p'.avgPrice * p'.netQty == p.realizedPnl - p.avgPrice * p.netQty + f.CashFlow()
    && (Opens(p.netQty, signed) ==> p'.realizedPnl == p.realizedPnl)
    && (!Opens(p.netQty, signed) && Abs(signed) < Abs(p.netQty) ==> p'.avgPrice == p.avgPrice)
    && (!Opens(p.netQty, signed) && Abs(signed) > Abs(p.netQty) ==> p'.avgPrice == f.price)
    && FlatCostsNothing(p')
  }

  lemma WeightedAverage(avg: real, net: real, price: real, signed: real)
    requires signed != 0.0 && Opens(net, signed)
    ensures net + signed != 0.0
    ensures (avg * Abs(net) + price * Abs(signed)) / Abs(net + signed) * (net + signed)
         == avg * net + price * signed
  {
    var weighted := avg * Abs(net) + price * Abs(signed);
    if net == 0.0 {
      assert avg * Abs(net) == 0.0 == avg * net;
    }
    if net + signed > 0.0 {
      assert weighted == avg * net + price * signed;
    } else {
      assert weighted == -(avg * net + price * signed);
    }
  }

  /** The discipline determines the new position: `HoldingAfter` meets it and nothing else does. */
  lemma HoldingAfterIsTheAverageCostStep(p: Holding, f: Fill, p': Holding)
    requires f.qty > 0.0
    ensures p' == HoldingAfter(p, f) <==> AverageCostStep(p, f, p')
  {
    HoldingAfterMeetsTheStep(p, f);
    if AverageCostStep(p, f, p') {
      StepsAgree(p, f, HoldingAfter(p, f), p');
    }
  }

  lemma HoldingAfterMeetsTheStep(p: Holding, f: Fill)
    requires f.qty > 0.0
    ensures AverageCostStep(p, f, HoldingAfter(p, f))
  {
    var signed := f.Signed();
    if Opens(p.netQty, signed) {
      WeightedAverage(p.avgPrice, p.netQty, f.price, signed);
    }
  }

  lemma StepsAgree(p: Holding, f: Fill, a: Holding, b: Holding)
    requires f.qty > 0.0
    requires AverageCostStep(p, f, a) && AverageCostStep(p, f, b)
    ensures a == b
  {
    var net := p.netQty + f.Signed();
    if net != 0.0 && Opens(p.netQty, f.Signed()) {
      assert a.netQty == net && b.netQty == net;
      assert a.avgPrice * net == b.avgPrice * net by {
        assert a.avgPrice * a.netQty == b.avgPrice * b.netQty;
      }
      CancelFactor(a.avgPrice, b.avgPrice, net);
    }
  }

  lemma CancelFactor(x: real, y: real, n: real)
    requires n != 0.0 && x * n == y * n
    ensures x == y
  {
    assert (x - y) * n == 0.0;
  }

  /** A new average lies between any bounds on the old average and the fill price. */
  lemma AverageStaysBetween(p: Holding, f: Fill, lo: real, hi: real)
    requires f.qty > 0.0
    requires p.netQty != 0.0 ==> lo <= p.avgPrice <= hi
    requires lo <= f.price <= hi
    ensures HoldingAfter(p, f).netQty != 0.0 ==> lo <= HoldingAfter(p, f).avgPrice <= hi
  {
    var signed := f.Signed();
    var a, b := Abs(p.netQty), Abs(signed);
    if Opens(p.netQty, signed) {
      var avg := HoldingAfter(p, f).avgPrice;
      assert a + b == Abs(p.netQty + signed);
      assert avg * (a + b) == p.avgPrice * a + f.price * b;
      ConvexCombination(p.avgPrice, a, f.price, b, avg, lo, hi);
    }
  }

  lemma ConvexCombination(x: real, a: real, y: real, b: real, avg: real, lo: real, hi: real)
    requires a >= 0.0 && b > 0.0
    requires a > 0.0 ==> lo <= x <= hi
    requires lo <= y <= hi
    requires avg * (a + b) == x * a + y * b
    ensures lo <= avg <= hi
  {
    assert lo * b <= y * b <= hi * b;
    if a > 0.0 {
      assert lo * a <= x * a <= hi * a;
    }
    assert lo * (a + b) <= avg * (a + b) <= hi * (a + b);
    OrderedQuotients(lo, avg, a + b);
    OrderedQuotients(avg, hi, a + b);
  }

  lemma OrderedQuotients(x: real, y: real, n: real)
    requires n > 0.0 && x * n <= y * n
    ensures x <= y
  {
    assert (x - y) * n <= 0.0;
  }

  // ---------- one account ----------

  datatype ClosedPosition = ClosedPosition(symbol: string, qty: real, avgEntry: real,
                                           exitPrice: real, realizedPnl: real, closedTs: int)

  datatype Account = Account(initialCapital: real, cash: real,
                             positions: map<string, Holding>, closed: seq<ClosedPosition>)
  {
    function PositionOf(symbol: string): Holding {
      if symbol in positions then positions[symbol] else FLAT
    }

    function NetQty(symbol: string): real {
      PositionOf(symbol).netQty
    }
  }

  function Funded(capital: real): Account {
    Account(capital, capital, map[], [])
  }

  predicate ClosesFlat(p: Holding, f: Fill)
    requires f.qty > 0.0
  {
    p.netQty != 0.0 && HoldingAfter(p, f).netQty == 0.0
  }

  function ClosingRecord(p: Holding, f: Fill): ClosedPosition
    requires f.qty > 0.0
  {
    ClosedPosition(f.symbol, Abs(p.netQty), p.avgPrice, f.price,
                   HoldingAfter(p, f).realizedPnl - p.realizedPnl, f.ts)
  }

  function AccountAfter(a: Account, f: Fill): Account
    requires f.qty > 0.0
  {
    var p := a.PositionOf(f.symbol);
    Account(a.initialCapital,
            a.cash + f.CashFlow(),
            a.positions[f.symbol := HoldingAfter(p, f)],
            if ClosesFlat(p, f) then a.closed + [ClosingRecord(p, f)] else a.closed)
  }

  /** What a closing fill records: size, entry and exit of the leg it closes, and its profit. */
  lemma ClosingRecordPnl(p: Holding, f: Fill)
    requires f.qty > 0.0 && ClosesFlat(p, f)
    ensures var r := ClosingRecord(p, f);
      && r.qty == f.qty
      && r.realizedPnl == (r.exitPrice - r.avgEntry) * p.netQty
      && (p.netQty > 0.0 ==> r.realizedPnl == r.qty * (r.exitPrice - r.avgEntry))
  {
    HoldingAfterMeetsTheStep(p, f);
  }

  // ---------- totals over the account ----------

  type Marks = map<string, real>

  function MarkedValue(p: Holding, s: string, marks: Marks): real {
    if s in marks then p.netQty * marks[s] else 0.0
  }

  function MarkedUnrealized(p: Holding, s: string, marks: Marks): real {
    if s in marks then (marks[s] - p.avgPrice) * p.netQty else 0.0
  }

  ghost function Values(a: Account, marks: Marks): (m: map<string, real>)
    ensures m.Keys == a.positions.Keys
  {
    map s | s in a.positions :: MarkedValue(a.positions[s], s, marks)
  }

  ghost function Profits(a: Account): (m: map<string, real>)
    ensures m.Keys == a.positions.Keys
  {
    map s | s in a.positions :: a.positions[s].realizedPnl
  }

  ghost function OpenProfits(a: Account, marks: Marks): (m: map<string, real>)
    ensures m.Keys == a.positions.Keys
  {
    map s | s in a.positions :: MarkedUnrealized(a.positions[s], s, marks)
  }

  ghost function UnmarkedCosts(a: Account, marks: Marks): (m: map<string, real>)
    ensures m.Keys == a.positions.Keys
  {
    map s | s in a.positions :: if s in marks then 0.0 else a.positions[s].avgPrice * a.positions[s].netQty
  }

  ghost function PositionsValue(a: Account, marks: Marks): real {
    Sum(Values(a, marks))
  }

  ghost function Realized(a: Account): real {
    Sum(Profits(a))
  }

  ghost function Unrealized(a: Account, marks: Marks): real {
    Sum(OpenProfits(a, marks))
  }

  /** The cost of the open positions that have no mark: the part of cash the totals cannot see. */
  ghost function UnmarkedCost(a: Account, marks: Marks): real {
    Sum(UnmarkedCosts(a, marks))
  }

  ghost function Equity(a: Account, marks: Marks): real {
    a.cash + PositionsValue(a, marks)
  }

  ghost function TotalPnl(a: Account, marks: Marks): real {
    Equity(a, marks) - a.initialCapital
  }

  /** Every dollar that left the account is in an open position's cost or in realized profit. */
  ghost predicate Balanced(a: Account) {
    a.cash == a.initialCapital + Sum(CashShares(a.positions))
  }

  function CashShare(p: Holding): real {
    p.realizedPnl - p.avgPrice * p.netQty
  }

  ghost function CashShares(positions: map<string, Holding>): (m: map<string, real>)
    ensures m.Keys == positions.Keys
  {
    map s | s in positions :: CashShare(positions[s])
  }

  lemma FundedIsBalanced(capital: real)
    ensures Balanced(Funded(capital))
  {
    assert CashShares(map[]) == map[];
  }

  lemma FillKeepsBalance(a: Account, f: Fill)
    requires f.qty > 0.0 && Balanced(a)
    ensures Balanced(AccountAfter(a, f))
  {
    var p := a.PositionOf(f.symbol);
    var p' := HoldingAfter(p, f);
    var before := CashShares(a.positions);
    HoldingAfterMeetsTheStep(p, f);
    SumUpdate(before, f.symbol, CashShare(p'));
    assert CashShares(AccountAfter(a, f).positions) == before[f.symbol := CashShare(p')];
  }

  /**
   Total profit splits into realized and unrealized profit up to the cost of unmarked positions,
   for every account that balances and every set of marks.
   */
  lemma PnlDecomposition(a: Account, marks: Marks)
    requires Balanced(a)
    ensures TotalPnl(a, marks) == Realized(a) + Unrealized(a, marks) - UnmarkedCost(a, marks)
  {
    var both := map s | s in a.positions :: Profits(a)[s] + OpenProfits(a, marks)[s];
    var seen := map s | s in a.positions :: both[s] - UnmarkedCosts(a, marks)[s];
    forall s | s in a.positions
      ensures seen[s] == CashShare(a.positions[s]) + MarkedValue(a.positions[s], s, marks)
    {
      if s in marks {
        Distribute(marks[s], a.positions[s].avgPrice, a.positions[s].netQty);
      }
    }
    SumAdd(CashShares(a.positions), Values(a, marks), seen);
    SumAdd(Profits(a), OpenProfits(a, marks), both);
    SumAdd(seen, UnmarkedCosts(a, marks), both);
  }

  lemma Distribute(x: real, y: real, n: real)
    ensures (x - y) * n == x * n - y * n
  {
  }

  /** The published identity holds exactly when the unmarked positions cost nothing in total. */
  lemma PnlIdentity(a: Account, marks: Marks)
    requires Balanced(a)
    ensures TotalPnl(a, marks) == Realized(a) + Unrealized(a, marks) <==> UnmarkedCost(a, marks) == 0.0
    ensures a.positions.Keys <= marks.Keys ==> UnmarkedCost(a, marks) == 0.0
  {
    PnlDecomposition(a, marks);
    if a.positions.Keys <= marks.Keys {
      SumOfZeros(UnmarkedCosts(a, marks));
    }
  }

  lemma ReplacedValues(a: Account, a': Account, marks: Marks, symbol: string, p: Holding)
    requires a'.positions == a.positions[symbol := p]
    ensures Values(a', marks) == Values(a, marks)[symbol := MarkedValue(p, symbol, marks)]
  {
    forall s | s in a'.positions
      ensures Values(a', marks)[s] == Values(a, marks)[symbol := MarkedValue(p, symbol, marks)][s]
    {
      assert Values(a', marks)[s] == MarkedValue(a'.positions[s], s, marks);
    }
  }

  lemma ValueAt(a: Account, marks: Marks, symbol: string)
    requires symbol in marks
    ensures (if symbol in a.positions then Values(a, marks)[symbol] else 0.0) == a.NetQty(symbol) * marks[symbol]
  {
  }

  /** Replacing one position changes the total value by that position's change. */
  lemma ReplacedPositionValue(a: Account, a': Account, marks: Marks, symbol: string, p: Holding)
    requires symbol in marks && a'.positions == a.positions[symbol := p]
    ensures PositionsValue(a', marks)
         == PositionsValue(a, marks) + p.netQty * marks[symbol] - a.NetQty(symbol) * marks[symbol]
  {
    var was := a.NetQty(symbol) * marks[symbol];
    var v := p.netQty * marks[symbol];
    ReplacedValues(a, a', marks, symbol, p);
    ValueAt(a, marks, symbol);
    assert v == MarkedValue(p, symbol, marks);
    SumMoves(Values(a, marks), Values(a', marks), symbol, was, v);
  }

  lemma TradedAgainstMark(net: real, signed: real, mark: real, price: real)
    ensures -(signed * price) + (net + signed) * mark - net * mark == signed * (mark - price)
  {
  }

  /** A fill moves equity by its quantity times the gap between the mark and its price. */
  lemma FillMovesEquity(a: Account, f: Fill, marks: Marks)
    requires f.qty > 0.0 && f.symbol in marks
    ensures Equity(AccountAfter(a, f), marks) == Equity(a, marks) + f.Signed() * (marks[f.symbol] - f.price)
  {
    EquityAfterTrade(a, AccountAfter(a, f), f, marks, HoldingAfter(a.PositionOf(f.symbol), f));
  }

  lemma EquityAfterTrade(a: Account, a': Account, f: Fill, marks: Marks, p': Holding)
    requires f.symbol in marks && a'.positions == a.positions[f.symbol := p']
    requires p'.netQty == a.NetQty(f.symbol) + f.Signed() && a'.cash == a.cash + f.CashFlow()
    ensures Equity(a', marks) == Equity(a, marks) + f.Signed() * (marks[f.symbol] - f.price)
  {
    hide PositionsValue;
    ReplacedPositionValue(a, a', marks, f.symbol, p');
    var net, signed, mark := a.NetQty(f.symbol), f.Signed(), marks[f.symbol];
    TradedAgainstMark(net, signed, mark, f.price);
  }

  function MarkOf(marks: Marks, symbol: string): real {
    if symbol in marks then marks[symbol] else 0.0
  }

  /** Moving one mark moves equity by the net quantity times the change. */
  lemma MarkMovesEquity(a: Account, marks: Marks, symbol: string, mark: real)
    requires symbol in marks || a.NetQty(symbol) == 0.0
    ensures Equity(a, marks[symbol := mark])
         == Equity(a, marks) + a.NetQty(symbol) * (mark - MarkOf(marks, symbol))
  {
    var marks' := marks[symbol := mark];
    if symbol in a.positions {
      var was := a.NetQty(symbol) * MarkOf(marks, symbol);
      var v := a.NetQty(symbol) * mark;
      RemarkedValues(a, marks, symbol, mark, v);
      assert was == Values(a, marks)[symbol];
      SumMoves(Values(a, marks), Values(a, marks'), symbol, was, v);
    } else {
      forall s | s in a.positions
        ensures Values(a, marks')[s] == Values(a, marks)[s]
      {
      }
      assert Values(a, marks') == Values(a, marks);
    }
  }

  lemma RemarkedValues(a: Account, marks: Marks, symbol: string, mark: real, v: real)
    requires symbol in a.positions && v == a.NetQty(symbol) * mark
    ensures Values(a, marks[symbol := mark]) == Values(a, marks)[symbol := v]
  {
    forall s | s in a.positions
      ensures Values(a, marks[symbol := mark])[s] == Values(a, marks)[symbol := v][s]
    {
      if s != symbol {
        assert s in marks[symbol := mark] <==> s in marks;
      }
    }
  }
}
