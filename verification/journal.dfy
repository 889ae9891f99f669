/**
 The journal of fills as an independent account of what happened: quantities, cash, the prices
 of the open run and the round trips are read off the fills alone and then shown to be what the
 portfolio recorded.
 */
module Journal {
  import opened Types
  import opened Accounting

  type Fills = fills: seq<Fill> | forall i | 0 <= i < |fills| :: fills[i].qty > 0.0 witness []

  function Replay(a: Account, fills: Fills): Account {
    if fills == [] then a else AccountAfter(Replay(a, fills[..|fills| - 1]), fills[|fills| - 1])
  }

  // ---------- readings of the journal that never look at a position ----------

  function NetOf(fills: Fills, symbol: string): real {
    if fills == [] then 0.0
    else
      var f := fills[|fills| - 1];
      NetOf(fills[..|fills| - 1], symbol) + if f.symbol == symbol then f.Signed() else 0.0
  }

  function CashOf(fills: Fills, symbol: string): real {
    if fills == [] then 0.0
    else
      var f := fills[|fills| - 1];
      CashOf(fills[..|fills| - 1], symbol) + if f.symbol == symbol then f.CashFlow() else 0.0
  }

  function TotalCash(fills: Fills): real {
    if fills == [] then 0.0 else TotalCash(fills[..|fills| - 1]) + fills[|fills| - 1].CashFlow()
  }

  /** The prices of the fills that opened or extended the position that is open now. */
  function RunPrices(fills: Fills, symbol: string): seq<real> {
    if fills == [] then []
    else
      var f := fills[|fills| - 1];
      var earlier := fills[..|fills| - 1];
      var before := NetOf(earlier, symbol);
      var after := before + f.Signed();
      if f.symbol != symbol then RunPrices(earlier, symbol)
      else if after == 0.0 then []
      else if before == 0.0 || ((before > 0.0) != (after > 0.0)) then [f.price]
      else if Abs(after) > Abs(before) then RunPrices(earlier, symbol) + [f.price]
      else RunPrices(earlier, symbol)
  }

  ghost predicate WithinPrices(x: real, prices: seq<real>) {
    && (exists i | 0 <= i < |prices| :: prices[i] <= x)
    && (exists i | 0 <= i < |prices| :: x <= prices[i])
  }

  datatype RoundTrip = RoundTrip(symbol: string, qty: real, exitPrice: real, ts: int)

  /** Every fill on which a symbol's journalled quantity went from nonzero to exactly zero. */
  function RoundTrips(fills: Fills): seq<RoundTrip> {
    if fills == [] then []
    else
      var f := fills[|fills| - 1];
      var earlier := fills[..|fills| - 1];
      var before := NetOf(earlier, f.symbol);
      RoundTrips(earlier) +
      if before != 0.0 && before + f.Signed() == 0.0 then [RoundTrip(f.symbol, Abs(before), f.price, f.ts)] else []
  }

  function Outline(closed: seq<ClosedPosition>): seq<RoundTrip> {
    seq(|closed|, i requires 0 <= i < |closed| =>
      RoundTrip(closed[i].symbol, closed[i].qty, closed[i].exitPrice, closed[i].closedTs))
  }

  /** Cash of the fills in `symbol` since it was last flat, not counting the current flat moment. */
  function RunCash(fills: Fills, symbol: string): real {
    if fills == [] then 0.0
    else
      var f := fills[|fills| - 1];
      var earlier := fills[..|fills| - 1];
      if f.symbol != symbol then RunCash(earlier, symbol)
      else if NetOf(earlier, symbol) == 0.0 then f.CashFlow()
      else RunCash(earlier, symbol) + f.CashFlow()
  }

  // ---------- appending one fill ----------

  lemma ReplayAppend(a: Account, fills: Fills, f: Fill)
    requires f.qty > 0.0
    ensures Replay(a, fills + [f]) == AccountAfter(Replay(a, fills), f)
  {
    assert (fills + [f])[..|fills|] == fills;
  }

  lemma NetOfAppend(fills: Fills, f: Fill, symbol: string)
    requires f.qty > 0.0
    ensures NetOf(fills + [f], symbol) == NetOf(fills, symbol) + if f.symbol == symbol then f.Signed() else 0.0
  {
    assert (fills + [f])[..|fills|] == fills;
  }

  // ---------- what the portfolio shows is what the journal says ----------

  ghost predicate Reflects(p: Holding, net: real, cash: real) {
    && p.netQty == net
    && p.realizedPnl == cash + p.avgPrice * p.netQty
    && FlatCostsNothing(p)
  }

  lemma FillKeepsReflection(p: Holding, f: Fill, net: real, cash: real)
    requires f.qty > 0.0 && Reflects(p, net, cash)
    ensures Reflects(HoldingAfter(p, f), net + f.Signed(), cash + f.CashFlow())
  {
    HoldingAfterMeetsTheStep(p, f);
  }

  /** Position quantity, lifetime profit and cost are the journal's, for every list of fills. */
  lemma {:induction false} ReplayMatchesJournal(capital: real, fills: Fills, symbol: string)
    ensures Reflects(Replay(Funded(capital), fills).PositionOf(symbol), NetOf(fills, symbol), CashOf(fills, symbol))
  {
    if fills != [] {
      var earlier, f := fills[..|fills| - 1], fills[|fills| - 1];
      ReplayMatchesJournal(capital, earlier, symbol);
      var p := Replay(Funded(capital), earlier).PositionOf(symbol);
      if f.symbol == symbol {
        FillKeepsReflection(p, f, NetOf(earlier, symbol), CashOf(earlier, symbol));
        assert Replay(Funded(capital), fills).PositionOf(symbol) == HoldingAfter(p, f);
      } else {
        assert Replay(Funded(capital), fills).PositionOf(symbol) == p;
      }
    }
  }

  /** Whenever a symbol is flat, its lifetime realized profit is the net cash of all its fills. */
  lemma FlatRealizedIsCash(capital: real, fills: Fills, symbol: string)
    requires NetOf(fills, symbol) == 0.0
    ensures Replay(Funded(capital), fills).PositionOf(symbol).realizedPnl == CashOf(fills, symbol)
  {
    ReplayMatchesJournal(capital, fills, symbol);
  }

  /** While a symbol is open, its average price lies within the prices that built the open run. */
  lemma {:induction false} AverageWithinRun(capital: real, fills: Fills, symbol: string)
    requires NetOf(fills, symbol) != 0.0
    ensures WithinPrices(Replay(Funded(capital), fills).PositionOf(symbol).avgPrice, RunPrices(fills, symbol))
  {
    var earlier, f := fills[..|fills| - 1], fills[|fills| - 1];
    var p := Replay(Funded(capital), earlier).PositionOf(symbol);
    ReplayMatchesJournal(capital, earlier, symbol);
    if NetOf(earlier, symbol) != 0.0 {
      AverageWithinRun(capital, earlier, symbol);
    }
    if f.symbol == symbol {
      AverageStepWithin(p, f, RunPrices(earlier, symbol), RunPrices(fills, symbol));
    }
  }

  lemma AverageStepWithin(p: Holding, f: Fill, earlier: seq<real>, prices: seq<real>)
    requires f.qty > 0.0
    requires p.netQty != 0.0 ==> WithinPrices(p.avgPrice, earlier)
    requires p.netQty + f.Signed() != 0.0
    requires prices ==
      if p.netQty == 0.0 || ((p.netQty > 0.0) != (p.netQty + f.Signed() > 0.0)) then [f.price]
      else if Abs(p.netQty + f.Signed()) > Abs(p.netQty) then earlier + [f.price]
      else earlier
    ensures WithinPrices(HoldingAfter(p, f).avgPrice, prices)
  {
    var p' := HoldingAfter(p, f);
    HoldingAfterMeetsTheStep(p, f);
    if p.netQty == 0.0 {
      AverageStaysBetween(p, f, f.price, f.price);
      assert p'.avgPrice == prices[0];
    } else if !Opens(p.netQty, f.Signed()) {
      if Abs(f.Signed()) > Abs(p.netQty) {
        assert p'.avgPrice == prices[0];
      }
    } else {
      var i :| 0 <= i < |earlier| && earlier[i] <= p.avgPrice;
      var j :| 0 <= j < |earlier| && p.avgPrice <= earlier[j];
      var lo, hi := Min(earlier[i], f.price), if earlier[j] >= f.price then earlier[j] else f.price;
      AverageStaysBetween(p, f, lo, hi);
      assert prices[i] == earlier[i] && prices[j] == earlier[j] && prices[|earlier|] == f.price;
    }
  }

  /** The closed records are exactly the journal's nonzero-to-zero crossings, in order. */
  lemma {:induction false} ClosedRecordsAreRoundTrips(capital: real, fills: Fills)
    ensures Outline(Replay(Funded(capital), fills).closed) == RoundTrips(fills)
  {
    if fills != [] {
      var earlier, f := fills[..|fills| - 1], fills[|fills| - 1];
      ClosedRecordsAreRoundTrips(capital, earlier);
      ReplayMatchesJournal(capital, earlier, f.symbol);
    }
  }

  lemma {:induction false} ReplayCash(capital: real, fills: Fills)
    ensures var a := Replay(Funded(capital), fills);
      && a.initialCapital == capital
      && a.cash == capital + TotalCash(fills)
  {
    if fills != [] {
      ReplayCash(capital, fills[..|fills| - 1]);
    }
  }

  lemma {:induction false} ReplayBalanced(capital: real, fills: Fills)
    ensures Balanced(Replay(Funded(capital), fills))
  {
    if fills == [] {
      FundedIsBalanced(capital);
    } else {
      ReplayBalanced(capital, fills[..|fills| - 1]);
      FillKeepsBalance(Replay(Funded(capital), fills[..|fills| - 1]), fills[|fills| - 1]);
    }
  }

  // ---------- what a closed record's profit covers ----------

  /** Realized profit at the moment the current run started. */
  function RealizedAtRunStart(capital: real, fills: Fills, symbol: string): real {
    if fills == [] then 0.0
    else
      var f := fills[|fills| - 1];
      var earlier := fills[..|fills| - 1];
      if f.symbol == symbol && NetOf(earlier, symbol) == 0.0
      then Replay(Funded(capital), earlier).PositionOf(symbol).realizedPnl
      else RealizedAtRunStart(capital, earlier, symbol)
  }

  /** Cash of the current run plus what had been realized before it started. */
  function RunAccrual(capital: real, fills: Fills, symbol: string): real {
    RunCash(fills, symbol) + RealizedAtRunStart(capital, fills, symbol)
  }

  lemma RunAccrualStep(capital: real, fills: Fills, symbol: string, p: Holding)
    requires fills != []
    requires p == Replay(Funded(capital), fills[..|fills| - 1]).PositionOf(symbol)
    ensures var earlier, f := fills[..|fills| - 1], fills[|fills| - 1];
      var base := if f.symbol == symbol && NetOf(earlier, symbol) == 0.0 then p.realizedPnl
                  else RunAccrual(capital, earlier, symbol);
      RunAccrual(capital, fills, symbol) == base + if f.symbol == symbol then f.CashFlow() else 0.0
  {
  }

  /** What the last fill of a list does to a symbol's position and journalled quantity. */
  lemma LastFill(capital: real, fills: Fills, symbol: string)
    requires fills != []
    ensures var earlier, f := fills[..|fills| - 1], fills[|fills| - 1];
      var p := Replay(Funded(capital), earlier).PositionOf(symbol);
      && Replay(Funded(capital), fills).PositionOf(symbol) == (if f.symbol == symbol then HoldingAfter(p, f) else p)
      && NetOf(fills, symbol) == NetOf(earlier, symbol) + (if f.symbol == symbol then f.Signed() else 0.0)
  {
    hide HoldingAfter;
  }

  lemma FlatReflectsItsProfit(p: Holding, net: real, cash: real)
    requires Reflects(p, net, cash) && net == 0.0
    ensures Reflects(p, net, p.realizedPnl)
  {
  }

  lemma {:induction false} RunCashReflected(capital: real, fills: Fills, symbol: string)
    ensures Reflects(Replay(Funded(capital), fills).PositionOf(symbol), NetOf(fills, symbol),
                     RunAccrual(capital, fills, symbol))
  {
    if fills == [] {
      assert Replay(Funded(capital), fills).PositionOf(symbol) == FLAT;
    } else {
      hide Reflects;
      RunCashReflected(capital, fills[..|fills| - 1], symbol);
      RunCashGrows(capital, fills, symbol);
    }
  }

  lemma RunCashGrows(capital: real, fills: Fills, symbol: string)
    requires fills != []
    requires var earlier := fills[..|fills| - 1];
      Reflects(Replay(Funded(capital), earlier).PositionOf(symbol), NetOf(earlier, symbol),
               RunAccrual(capital, earlier, symbol))
    ensures Reflects(Replay(Funded(capital), fills).PositionOf(symbol), NetOf(fills, symbol),
                     RunAccrual(capital, fills, symbol))
  {
    hide HoldingAfter;
    hide Reflects;
    hide Replay;
    hide NetOf;
    hide RunAccrual;
    hide Account.PositionOf;
    var earlier, f := fills[..|fills| - 1], fills[|fills| - 1];
    var p, net := Replay(Funded(capital), earlier).PositionOf(symbol), NetOf(earlier, symbol);
    RunAccrualStep(capital, fills, symbol, p);
    LastFill(capital, fills, symbol);
    if f.symbol == symbol {
      if net == 0.0 {
        FlatReflectsItsProfit(p, net, RunAccrual(capital, earlier, symbol));
      }
      FillKeepsReflection(p, f, net, if net == 0.0 then p.realizedPnl else RunAccrual(capital, earlier, symbol));
    }
  }

  /**
   A closed record leaves out exactly what the run had realized before the closing fill, so it covers
   the whole round trip exactly when that is nothing.
   */
  lemma ClosedPnlCoversRoundTripIff(capital: real, earlier: Fills, f: Fill)
    requires f.qty > 0.0
    requires NetOf(earlier, f.symbol) != 0.0 && NetOf(earlier, f.symbol) + f.Signed() == 0.0
    ensures var a := Replay(Funded(capital), earlier);
      var record := ClosingRecord(a.PositionOf(f.symbol), f);
      && AccountAfter(a, f).closed == a.closed + [record]
      && record.realizedPnl == RunCash(earlier + [f], f.symbol)
           - (a.PositionOf(f.symbol).realizedPnl - RealizedAtRunStart(capital, earlier, f.symbol))
      && (record.realizedPnl == RunCash(earlier + [f], f.symbol)
          <==> a.PositionOf(f.symbol).realizedPnl == RealizedAtRunStart(capital, earlier, f.symbol))
  {
    hide HoldingAfter;
    hide Reflects;
    hide RealizedAtRunStart;
    var p := Replay(Funded(capital), earlier).PositionOf(f.symbol);
    RunCashReflected(capital, earlier, f.symbol);
    ClosingRealizes(p, f, NetOf(earlier, f.symbol), RunAccrual(capital, earlier, f.symbol));
    assert (earlier + [f])[..|earlier|] == earlier;
  }

  lemma ClosingRealizes(p: Holding, f: Fill, net: real, cash: real)
    requires f.qty > 0.0 && Reflects(p, net, cash) && net != 0.0 && net + f.Signed() == 0.0
    ensures ClosesFlat(p, f) && HoldingAfter(p, f).realizedPnl == cash + f.CashFlow()
  {
    FillKeepsReflection(p, f, net, cash);
  }

  /** Since the symbol was last flat every fill in it has opened or extended the position. */
  predicate NothingReduced(fills: Fills, symbol: string) {
    if fills == [] then true
    else
      var f := fills[|fills| - 1];
      var earlier := fills[..|fills| - 1];
      if f.symbol != symbol then NothingReduced(earlier, symbol)
      else
        NetOf(earlier, symbol) == 0.0
        || (Opens(NetOf(earlier, symbol), f.Signed()) && NothingReduced(earlier, symbol))
  }

  lemma {:induction false} NothingReducedNothingRealized(capital: real, fills: Fills, symbol: string)
    requires NothingReduced(fills, symbol)
    ensures Replay(Funded(capital), fills).PositionOf(symbol).realizedPnl
         == RealizedAtRunStart(capital, fills, symbol)
  {
    if fills != [] {
      var earlier, f := fills[..|fills| - 1], fills[|fills| - 1];
      var p := Replay(Funded(capital), earlier).PositionOf(symbol);
      ReplayMatchesJournal(capital, earlier, symbol);
      if f.symbol == symbol {
        HoldingAfterMeetsTheStep(p, f);
        if NetOf(earlier, symbol) != 0.0 {
          NothingReducedNothingRealized(capital, earlier, symbol);
        }
      } else {
        NothingReducedNothingRealized(capital, earlier, symbol);
      }
      hide HoldingAfter;
    }
  }

  /** Read off the journal alone: a position built up and sold in one fill is covered by its record. */
  lemma SingleExitIsCovered(capital: real, earlier: Fills, f: Fill)
    requires f.qty > 0.0 && NothingReduced(earlier, f.symbol)
    requires NetOf(earlier, f.symbol) != 0.0 && NetOf(earlier, f.symbol) + f.Signed() == 0.0
    ensures var a := Replay(Funded(capital), earlier);
      && AccountAfter(a, f).closed == a.closed + [ClosingRecord(a.PositionOf(f.symbol), f)]
      && ClosingRecord(a.PositionOf(f.symbol), f).realizedPnl == RunCash(earlier + [f], f.symbol)
  {
    NothingReducedNothingRealized(capital, earlier, f.symbol);
    ClosedPnlCoversRoundTripIff(capital, earlier, f);
  }

  /** Buy 2 at 10, sell 1 at 20, sell 1 at 30: the record shows 20 of the 30 earned. */
  lemma PartialExitIsMissingFromTheRecord()
    ensures exists earlier: Fills, f: Fill ::
      && f.qty > 0.0 && NetOf(earlier, f.symbol) != 0.0 && NetOf(earlier, f.symbol) + f.Signed() == 0.0
      && ClosingRecord(Replay(Funded(100.0), earlier).PositionOf(f.symbol), f).realizedPnl
         != RunCash(earlier + [f], f.symbol)
  {
    hide HoldingAfter;
    hide Replay;
    hide NetOf;
    hide RunCash;
    hide RealizedAtRunStart;
    hide ClosingRecord;
    var earlier, f := BoughtThenTrimmed(), OneSold();
    OpenAfterTrim();
    ClosedPnlCoversRoundTripIff(100.0, earlier, f);
    assert ClosingRecord(Replay(Funded(100.0), earlier).PositionOf(f.symbol), f).realizedPnl
        != RunCash(earlier + [f], f.symbol);
  }

  function BoughtThenTrimmed(): Fills {
    [TwoBought()] + [OneTrimmed()]
  }

  /** One unit is left, ten have been realized, and nothing had been when the run started. */
  lemma OpenAfterTrim()
    ensures NetOf(BoughtThenTrimmed(), "X") == 1.0
    ensures Replay(Funded(100.0), BoughtThenTrimmed()).PositionOf("X").realizedPnl == 10.0
    ensures RealizedAtRunStart(100.0, BoughtThenTrimmed(), "X") == 0.0
  {
    hide HoldingAfter;
    hide Replay;
    hide NetOf;
    hide RealizedAtRunStart;
    var one: Fills := [TwoBought()];
    var two := BoughtThenTrimmed();
    assert one[..|one| - 1] == [] && two[..|two| - 1] == one;
    BoughtAndTrimmed();
    NothingReplayed(100.0);
    LastFill(100.0, one, "X");
    LastFill(100.0, two, "X");
    RunStart(100.0, one, "X");
    RunStart(100.0, two, "X");
  }

  lemma RunStart(capital: real, fills: Fills, symbol: string)
    requires fills != [] && fills[|fills| - 1].symbol == symbol
    ensures var earlier := fills[..|fills| - 1];
      RealizedAtRunStart(capital, fills, symbol)
        == if NetOf(earlier, symbol) == 0.0 then Replay(Funded(capital), earlier).PositionOf(symbol).realizedPnl
           else RealizedAtRunStart(capital, earlier, symbol)
  {
  }

  function TwoBought(): Fill {
    Fill(1, "X", Buy, 2.0, 10.0, 1)
  }

  function OneTrimmed(): Fill {
    Fill(2, "X", Sell, 1.0, 20.0, 2)
  }

  function OneSold(): Fill {
    Fill(3, "X", Sell, 1.0, 30.0, 3)
  }

  lemma NothingReplayed(capital: real)
    ensures Replay(Funded(capital), []) == Funded(capital) && NetOf([], "X") == 0.0
  {
  }

  lemma BoughtAndTrimmed()
    ensures HoldingAfter(FLAT, TwoBought()) == Holding(2.0, 10.0, 0.0)
    ensures HoldingAfter(Holding(2.0, 10.0, 0.0), OneTrimmed()) == Holding(1.0, 10.0, 10.0)
  {
    assert BlendedAverage(0.0, 0.0, 10.0, 2.0) == 10.0;
    assert ClosingGain(Holding(2.0, 10.0, 0.0), OneTrimmed()) == 10.0;
  }
}
