/** The mutable position and portfolio, proved to compute the accounting of module Accounting. */
module PortfolioBook {
  import opened Types
  import opened Sums
  import opened Accounting

  class Position {
    const symbol: string
    var netQty: real
    var avgPrice: real
    var realizedPnl: real

    function Value(): Holding
      reads this
    {
      Holding(netQty, avgPrice, realizedPnl)
    }

    constructor (symbol: string)
      ensures this.symbol == symbol && Value() == FLAT
    {
      this.symbol := symbol;
      netQty, avgPrice, realizedPnl := 0.0, 0.0, 0.0;
    }

    /** Extend the position at a new average, or reduce or flip it and realize profit. */
    method Apply(f: Fill)
      requires f.qty > 0.0
      modifies this
      ensures Value() == HoldingAfter(old(Value()), f)
      ensures FlatCostsNothing(Value())
    {
      hide BlendedAverage;
      hide ClosingGain;
      var newNet := netQty + f.Signed();
      if netQty == 0.0 || ((netQty > 0.0) == (f.Signed() > 0.0)) {
        OpenMore(f);
      } else {
        CloseSome(f);
      }
      netQty := newNet;
      if netQty == 0.0 {
        avgPrice := 0.0;
      }
    }

    method OpenMore(f: Fill)
      requires f.qty > 0.0 && Opens(netQty, f.Signed())
      modifies this`avgPrice
      ensures netQty + f.Signed() != 0.0
      ensures avgPrice == BlendedAverage(old(avgPrice), netQty, f.price, f.Signed())
    {
      var signed := f.Signed();
      var newNet := netQty + signed;
      avgPrice := (avgPrice * Abs(netQty) + f.price * Abs(signed)) / Abs(newNet);
    }

    /** Realizes profit on what is closed; a fill that goes through zero leaves its price as the average. */
    method CloseSome(f: Fill)
      modifies this`avgPrice, this`realizedPnl
      ensures realizedPnl == old(realizedPnl) + ClosingGain(old(Value()), f)
      ensures avgPrice == if Abs(f.Signed()) > Abs(netQty) then f.price else old(avgPrice)
    {
      var signed := f.Signed();
      var closed := Min(Abs(signed), Abs(netQty));
      var dir := if netQty > 0.0 then 1.0 else -1.0;
      realizedPnl := realizedPnl + (f.price - avgPrice) * closed * dir;
      if Abs(signed) > Abs(netQty) {
        avgPrice := f.price;
      }
    }

    function UnrealizedAt(mark: real): real
      reads this
    {
      (mark - avgPrice) * netQty
    }
  }

  class Portfolio {
    var initialCapital: real
    var cash: real
    var positions: map<string, Position>
    var closed: seq<ClosedPosition>

    ghost function Objects(): set<object>
      reads this`positions
    {
      set s | s in positions :: positions[s]
    }

    ghost function Repr(): set<object>
      reads this`positions
    {
      {this} + Objects()
    }

    /** Every position object carries its symbol, so no two symbols share one. */
    ghost predicate Valid()
      reads this`positions
    {
      forall s | s in positions :: positions[s].symbol == s
    }

    ghost function Book(): map<string, Holding>
      reads this`positions, Objects()
    {
      map s | s in positions :: positions[s].Value()
    }

    ghost function State(): Account
      reads Repr()
    {
      Account(initialCapital, cash, Book(), closed)
    }

    constructor ()
      ensures Valid() && Repr() == {this}
      ensures State() == Funded(0.0)
    {
      initialCapital, cash, positions, closed := 0.0, 0.0, map[], [];
    }

    method Fund(capital: real)
      requires Valid()
      modifies this
      ensures Valid() && Repr() == old(Repr())
      ensures State() == old(State()).(initialCapital := capital, cash := capital)
    {
      initialCapital := capital;
      cash := capital;
    }

    function NetQty(symbol: string): (net: real)
      reads Repr()
      ensures net == State().NetQty(symbol)
    {
      if symbol in positions then positions[symbol].netQty else 0.0
    }

    /** The symbol's position, created flat when there is none yet. */
    method PositionFor(symbol: string) returns (p: Position)
      requires Valid()
      modifies this`positions
      ensures Valid() && fresh(Repr() - old(Repr()))
      ensures symbol in positions && p == positions[symbol]
      ensures p.Value() == old(State()).PositionOf(symbol)
      ensures Book() == old(Book())[symbol := old(State()).PositionOf(symbol)]
    {
      if symbol !in positions {
        var entry := new Position(symbol);
        positions := positions[symbol := entry];
      }
      p := positions[symbol];
    }

    /** Applies the fill to its symbol's position; returns that position before and after. */
    method MovePosition(f: Fill) returns (before: Holding, after: Holding)
      requires Valid() && f.qty > 0.0
      modifies this`positions, Objects()
      ensures Valid() && fresh(Repr() - old(Repr()))
      ensures before == old(State()).PositionOf(f.symbol) && after == HoldingAfter(before, f)
      ensures Book() == old(Book())[f.symbol := after]
    {
      hide HoldingAfter;
      hide Book;
      hide State;
      hide Account.PositionOf;
      var p := PositionFor(f.symbol);
      before := p.Value();
      label Found:
      p.Apply(f);
      OnlyMoved@Found(f.symbol);
      after := p.Value();
    }

    twostate lemma OnlyMoved(symbol: string)
      requires symbol in positions && positions == old(positions)
      requires forall s | s in positions && s != symbol ::
        old(allocated(positions[s])) && unchanged(positions[s])
      ensures Book() == old(Book())[symbol := positions[symbol].Value()]
    {
    }

    /** Update the position and move cash; a position that ends exactly flat is recorded. */
    method Apply(f: Fill)
      requires Valid() && f.qty > 0.0
      modifies Repr()
      ensures Valid() && fresh(Repr() - old(Repr()))
      ensures State() == AccountAfter(old(State()), f)
    {
      hide HoldingAfter;
      hide AccountAfter;
      hide Fill.CashFlow;
      AccountParts(State(), f);
      hide Book;
      var was, now := MovePosition(f);
      MoveCash(f);
      Record(f, was, now);
    }

    method MoveCash(f: Fill)
      requires Valid()
      modifies this`cash
      ensures Valid() && Book() == old(Book()) && cash == old(cash) + f.CashFlow()
    {
      hide Fill.CashFlow;
      CashMoves(f);
      cash := cash + (if f.side == Buy then -1.0 else 1.0) * f.qty * f.price;
    }

    method Record(f: Fill, was: Holding, now: Holding)
      requires Valid()
      modifies this`closed
      ensures Valid() && Book() == old(Book())
      ensures closed == if was.netQty != 0.0 && now.netQty == 0.0
        then old(closed) + [ClosedPosition(f.symbol, Abs(was.netQty), was.avgPrice, f.price,
                                           now.realizedPnl - was.realizedPnl, f.ts)]
        else old(closed)
    {
      if was.netQty != 0.0 && now.netQty == 0.0 {
        closed := closed + [ClosedPosition(f.symbol, Abs(was.netQty), was.avgPrice, f.price,
                                           now.realizedPnl - was.realizedPnl, f.ts)];
      }
    }

    static lemma AccountParts(a: Account, f: Fill)
      requires f.qty > 0.0
      ensures var was := a.PositionOf(f.symbol);
        var now := HoldingAfter(was, f);
        AccountAfter(a, f) == Account(a.initialCapital, a.cash + f.CashFlow(), a.positions[f.symbol := now],
          if was.netQty != 0.0 && now.netQty == 0.0
          then a.closed + [ClosedPosition(f.symbol, Abs(was.netQty), was.avgPrice, f.price,
                                          now.realizedPnl - was.realizedPnl, f.ts)]
          else a.closed)
    {
      hide HoldingAfter;
    }

    static lemma CashMoves(f: Fill)
      ensures (if f.side == Buy then -1.0 else 1.0) * f.qty * f.price == f.CashFlow()
    {
    }

    static lemma EntriesOf(p: Holding, s: string, marks: Marks)
      ensures MarkedValue(p, s, marks) == if s in marks then p.netQty * marks[s] else 0.0
      ensures MarkedUnrealized(p, s, marks) == if s in marks then (marks[s] - p.avgPrice) * p.netQty else 0.0
    {
    }

    /** The value of the marked positions; a symbol without a mark is skipped. */
    method MarkToMarket(marks: Marks) returns (v: real)
      requires Valid()
      ensures v == PositionsValue(State(), marks)
    {
      hide MarkedValue;
      ghost var a := State();
      ghost var m := Values(a, marks);
      v := 0.0;
      ghost var left := m;
      var rest := positions.Keys;
      while rest != {}
        invariant State() == a && rest <= positions.Keys
        invariant left.Keys == rest && forall s | s in rest :: left[s] == m[s]
        invariant v + Sum(left) == Sum(m)
      {
        var s :| s in rest;
        SumRemove(left, s);
        left := left - {s};
        EntriesOf(a.positions[s], s, marks);
        if s in marks {
          v := v + positions[s].netQty * marks[s];
        }
        rest := rest - {s};
      }
      assert left == map[];
    }

    method RealizedPnl() returns (r: real)
      requires Valid()
      ensures r == Realized(State())
    {
      ghost var a := State();
      ghost var m := Profits(a);
      r := 0.0;
      ghost var left := m;
      var rest := positions.Keys;
      while rest != {}
        invariant State() == a && rest <= positions.Keys
        invariant left.Keys == rest && forall s | s in rest :: left[s] == m[s]
        invariant r + Sum(left) == Sum(m)
      {
        var s :| s in rest;
        SumRemove(left, s);
        left := left - {s};
        r := r + positions[s].realizedPnl;
        rest := rest - {s};
      }
      assert left == map[];
    }

    method UnrealizedPnl(marks: Marks) returns (u: real)
      requires Valid()
      ensures u == Unrealized(State(), marks)
    {
      hide MarkedUnrealized;
      ghost var a := State();
      ghost var m := OpenProfits(a, marks);
      u := 0.0;
      ghost var left := m;
      var rest := positions.Keys;
      while rest != {}
        invariant State() == a && rest <= positions.Keys
        invariant left.Keys == rest && forall s | s in rest :: left[s] == m[s]
        invariant u + Sum(left) == Sum(m)
      {
        var s :| s in rest;
        SumRemove(left, s);
        left := left - {s};
        EntriesOf(a.positions[s], s, marks);
        if s in marks {
          u := u + positions[s].UnrealizedAt(marks[s]);
        }
        rest := rest - {s};
      }
      assert left == map[];
    }

    method EquityAt(marks: Marks) returns (e: real)
      requires Valid()
      ensures e == Equity(State(), marks)
    {
      var v := MarkToMarket(marks);
      e := cash + v;
    }

    method TotalPnlAt(marks: Marks) returns (pnl: real)
      requires Valid()
      ensures pnl == TotalPnl(State(), marks)
    {
      var e := EquityAt(marks);
      pnl := e - initialCapital;
    }
  }
}
