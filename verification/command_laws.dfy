/** What each kind of command does to the engine, read off its fields and the quote it meets. */
module CommandLaws {
  import opened Types
  import opened Accounting
  import opened Risk
  import opened Desk
  import opened DeskLaws
  import opened Admission
  import opened Terminal

  /** The signal of a market order placed from the interface. */
  function Manual(c: Command, side: Side, qty: real, q: Quote): Signal {
    Signal(c.symbol, side, qty, Market, 0.0, "manual", q.ts)
  }

  /** What is asked for: the quantity itself, or what the notional buys at the price. */
  function Asked(c: Command, side: Side, q: Quote): real {
    if !c.useNotional then c.amount
    else if Price(side, q) > 0.0 then c.amount / Price(side, q)
    else 0.0
  }

  /** Everything but the desk is as it was. */
  predicate OnlyTheDesk(e: EngineState, e': EngineState) {
    e' == e.(desk := e'.desk)
  }

  /**
   A buy or sell command on a quoted symbol places one order for what is asked: it fills once at the
   price, or is left with the words of the gate it failed, or rests; asking for nothing does nothing.
   */
  lemma OrderCommandTrades(e: EngineState, c: Command)
    requires (c.kind == BuyOrder || c.kind == SellOrder) && c.symbol != "" && c.symbol in e.quotes
    ensures var d, d', q := e.desk, Processed(e, c).desk, e.quotes[c.symbol];
      var side := if c.kind == BuyOrder then Buy else Sell;
      var qty := Asked(c, side, q);
      var sig := Manual(c, side, qty, q);
      var cash, net := d.account.cash, d.account.NetQty(c.symbol);
      && OnlyTheDesk(e, Processed(e, c))
      && (qty <= 0.0 ==> d' == d)
      && (qty > 0.0 && FillsNow(cash, net, d.risk, sig, q) ==>
            && d'.fills == d.fills + [Fill(d.nextId, c.symbol, side, qty, Price(side, q), q.ts + d.seqNo + 1)]
            && MovedBy(d.account, d'.account, sig, Price(side, q))
            && d'.orders == d.orders[d.nextId := OrderFor(d.nextId, sig, qty, Price(side, q), Filled, "")])
      && (qty > 0.0 && !FillsNow(cash, net, d.risk, sig, q) ==>
            && d'.fills == d.fills && d'.account == d.account
            && d.nextId in d'.orders && d'.orders[d.nextId].rejectReason == Refusal(cash, net, d.risk, sig, q))
  {
    var q := e.quotes[c.symbol];
    var side := if c.kind == BuyOrder then Buy else Sell;
    var qty := Asked(c, side, q);
    var sig := Manual(c, side, qty, q);
    hide Submit;
    hide MovedBy;
    hide Refusal;
    hide OrderQty;
    hide Asked;
    hide Price;
    AskedIs(c, side, q);
    if qty > 0.0 {
      SubmitIff(e.desk, sig, q);
    }
  }

  lemma AskedIs(c: Command, side: Side, q: Quote)
    ensures OrderQty(c, q, side) == Asked(c, side, q)
  {
    PricesAgree(1, Manual(c, side, 1.0, q), q);
    hide Quote.Touch;
    hide Price;
  }

  /** A trading command on a symbol without a quote does nothing. */
  lemma UnquotedCommandDoesNothing(e: EngineState, c: Command)
    requires c.kind == BuyOrder || c.kind == SellOrder || c.kind == FlattenOrder
    requires c.symbol !in e.quotes
    ensures Processed(e, c) == e
  {
  }

  /** What a sell takes on a quoted book. */
  function SellPrice(q: Quote): real {
    if q.bid > 0.0 then q.bid else q.ask
  }

  /** What selling a quantity brings over what it cost. */
  function Earned(qty: real, price: real, cost: real): real {
    qty * (price - cost)
  }

  /** When a long position can be sold off in one order. */
  predicate CanFlatten(d: DeskState, symbol: string, q: Quote) {
    var net := d.account.NetQty(symbol);
    && !d.risk.killed
    && (q.bid > 0.0 || q.ask > 0.0)
    && net <= d.risk.limits.maxOrderQty
    && net * (if q.bid > 0.0 then q.bid else 0.5 * (q.bid + q.ask)) <= d.risk.limits.maxOrderNotional
    && 0.0 <= d.risk.limits.maxPositionQty
  }

  /**
   A flatten command on a quoted symbol held long ends flat exactly when one order can sell it all,
   and then takes its price times the position and leaves one record of it; otherwise it moves no money.
   */
  lemma FlattenCommandFlattens(e: EngineState, c: Command)
    requires c.kind == FlattenOrder && c.symbol != "" && c.symbol in e.quotes
    requires e.desk.account.NetQty(c.symbol) > 0.000000000001
    ensures var d, d', q := e.desk, Processed(e, c).desk, e.quotes[c.symbol];
      var net, price := d.account.NetQty(c.symbol), SellPrice(q);
      var avg := d.account.PositionOf(c.symbol).avgPrice;
      && OnlyTheDesk(e, Processed(e, c))
      && (d'.account.NetQty(c.symbol) == 0.0 <==> CanFlatten(d, c.symbol, q))
      && (CanFlatten(d, c.symbol, q) ==>
            && d'.account.cash == d.account.cash + Earned(net, price, 0.0)
            && d'.fills == d.fills + [Fill(d.nextId, c.symbol, Sell, net, price, q.ts + d.seqNo + 1)]
            && d'.orders == d.orders[d.nextId :=
                 OrderFor(d.nextId, Signal(c.symbol, Sell, net, Market, 0.0, "flatten", q.ts), net, price, Filled, "")]
            && d'.account.closed == d.account.closed
                 + [ClosedPosition(c.symbol, net, avg, price, Earned(net, price, avg), q.ts + d.seqNo + 1)])
      && (!CanFlatten(d, c.symbol, q) ==> d'.account == d.account && d'.fills == d.fills)
  {
    var d, q := e.desk, e.quotes[c.symbol];
    var net := d.account.NetQty(c.symbol);
    var sig := FlattenSignal(c.symbol, net, q);
    hide Submit;
    hide MovedBy;
    hide Refusal;
    hide Price;
    hide SellPrice;
    hide CanFlatten;
    hide Earned;
    SellAllIff(d, sig, q);
    assert Processed(e, c) == e.(desk := Submit(d, sig, q));
  }

  lemma SellAllIff(d: DeskState, sig: Signal, q: Quote)
    requires sig.side == Sell && sig.orderType == Market && sig.symbol != ""
    requires sig.targetQty == d.account.NetQty(sig.symbol) > 0.0
    ensures var d', net, price := Submit(d, sig, q), sig.targetQty, SellPrice(q);
      var avg := d.account.PositionOf(sig.symbol).avgPrice;
      if CanFlatten(d, sig.symbol, q) then
        && d'.account.NetQty(sig.symbol) == 0.0
        && d'.account.cash == d.account.cash + Earned(net, price, 0.0)
        && d'.fills == d.fills + [Fill(d.nextId, sig.symbol, Sell, net, price, q.ts + d.seqNo + 1)]
        && d'.orders == d.orders[d.nextId := OrderFor(d.nextId, sig, net, price, Filled, "")]
        && d'.account.closed == d.account.closed
             + [ClosedPosition(sig.symbol, net, avg, price, Earned(net, price, avg), q.ts + d.seqNo + 1)]
      else d'.account == d.account && d'.fills == d.fills
  {
    var net := sig.targetQty;
    hide SellPrice;
    DecideIff(d, sig, q);
    NothingAgainstSellingAll(d, sig, q);
    hide Decide;
    hide Refusal;
    hide Price;
    hide CanFlatten;
    if CanFlatten(d, sig.symbol, q) {
      ClosingAll(d.account, Decide(d, sig, q).fill, net, SellPrice(q));
    }
    hide AccountAfter;
    hide Earned;
  }

  lemma NothingAgainstSellingAll(d: DeskState, sig: Signal, q: Quote)
    requires sig.side == Sell && sig.orderType == Market
    requires sig.targetQty == d.account.NetQty(sig.symbol) > 0.0
    ensures CanFlatten(d, sig.symbol, q) <==>
      IsQuoted(q) && Refusal(d.account.cash, d.account.NetQty(sig.symbol), d.risk, sig, q) == ""
    ensures Reaches(sig, q) && (CanFlatten(d, sig.symbol, q) ==> Price(Sell, q) == SellPrice(q))
  {
    MarketPrices(sig, q);
    hide Checked;
    hide Price;
  }

  lemma ClosingAll(a: Account, f: Fill, net: real, price: real)
    requires f.side == Sell && f.qty == net == a.NetQty(f.symbol) > 0.0 && f.price == price
    ensures var p, a' := a.PositionOf(f.symbol), AccountAfter(a, f);
      && a'.NetQty(f.symbol) == 0.0
      && a'.cash == a.cash + Earned(net, price, 0.0)
      && a'.closed == a.closed
           + [ClosedPosition(f.symbol, net, p.avgPrice, price, Earned(net, price, p.avgPrice), f.ts)]
  {
    hide HoldingAfter;
    hide Fill.CashFlow;
    hide Earned;
    hide ClosingRecord;
    hide ClosesFlat;
    ClosingEarns(a.PositionOf(f.symbol), f);
    SaleCash(f);
  }

  lemma ClosingEarns(p: Holding, f: Fill)
    requires f.side == Sell && f.qty == p.netQty > 0.0
    ensures ClosesFlat(p, f) && HoldingAfter(p, f).netQty == 0.0
    ensures ClosingRecord(p, f)
         == ClosedPosition(f.symbol, f.qty, p.avgPrice, f.price, Earned(f.qty, f.price, p.avgPrice), f.ts)
  {
    HoldingAfterMeetsTheStep(p, f);
    ClosingRecordPnl(p, f);
  }

  lemma SaleCash(f: Fill)
    requires f.side == Sell
    ensures f.CashFlow() == Earned(f.qty, f.price, 0.0)
  {
  }

  /** With nothing but dust held, a flatten command does nothing. */
  lemma NothingToFlatten(e: EngineState, c: Command)
    requires c.kind == FlattenOrder && e.desk.account.NetQty(c.symbol) <= 0.000000000001
    ensures Processed(e, c) == e
  {
  }

  /** Focusing on a symbol charts it and changes nothing else. */
  lemma FocusCommandCharts(e: EngineState, c: Command)
    requires c.kind == SetFocus && c.symbol != ""
    ensures Processed(e, c).focus == c.symbol
    ensures Processed(e, c) == e.(focus := Processed(e, c).focus)
  {
  }

  /** Adding a symbol watches it in its class; a new one is charted, and a new crypto one asked of the feed. */
  lemma AddCommandWatches(e: EngineState, c: Command)
    requires c.kind == AddSymbol && c.symbol != ""
    ensures var e' := Processed(e, c);
      && c.symbol in (if c.assetClass == Stock then e'.stockSymbols else e'.symbols)
      && (if c.symbol in (if c.assetClass == Stock then e.stockSymbols else e.symbols) then e' == e
          else e'.focus == c.symbol
               && (c.assetClass == Stock ==>
                     e' == e.(stockSymbols := e.stockSymbols + [c.symbol], focus := e'.focus))
               && (c.assetClass == Crypto ==>
                     && c.symbol in e'.requested && e.requested <= e'.requested
                     && e' == e.(symbols := e.symbols + [c.symbol], focus := e'.focus, requested := e'.requested)))
  {
  }

  /** A kill command stops the very next order, which is left with the words of the switch. */
  lemma KillCommandStopsOrders(e: EngineState, kill: Command, c: Command)
    requires kill.kind == KillAll
    ensures var k, e' := Processed(e, kill), Processed(Processed(e, kill), c);
      && OnlyTheDesk(e, k) && k.desk.risk.killed
      && k.desk.account == e.desk.account && k.desk.fills == e.desk.fills && k.desk.orders == e.desk.orders
      && e'.desk.account == e.desk.account && e'.desk.fills == e.desk.fills
  {
    var k := Processed(e, kill);
    match ActionOf(k, c)
    case Some(a) => KilledStep(k.desk, k.desk, a);
    case None =>
  }

  /** The order a buy or sell command places after a kill is refused for that reason unless the account forbids it. */
  lemma KilledOrderSaysSo(e: EngineState, kill: Command, c: Command)
    requires kill.kind == KillAll
    requires (c.kind == BuyOrder || c.kind == SellOrder) && c.symbol != "" && c.symbol in e.quotes
    requires var side := if c.kind == BuyOrder then Buy else Sell;
      var qty := Asked(c, side, e.quotes[c.symbol]);
      && qty > 0.0
      && Shortage(e.desk.account.cash, e.desk.account.NetQty(c.symbol), Manual(c, side, qty, e.quotes[c.symbol]),
                  e.quotes[c.symbol]) == ""
    ensures var e' := Processed(Processed(e, kill), c);
      && e.desk.nextId in e'.desk.orders
      && e'.desk.orders[e.desk.nextId].rejectReason == "kill switch active: " + "manual halt (terminal)"
  {
    hide MovedBy;
    hide Asked;
    hide Price;
    hide Shortage;
    hide Refusal;
    hide FillsNow;
    hide Submit;
    var k, q := Processed(e, kill), e.quotes[c.symbol];
    var side := if c.kind == BuyOrder then Buy else Sell;
    OrderCommandTrades(k, c);
    KilledRefusal(e.desk.account.cash, e.desk.account.NetQty(c.symbol), k.desk.risk,
                  Manual(c, side, Asked(c, side, q), q), q);
  }

  lemma KilledRefusal(cash: real, net: real, r: RiskState, sig: Signal, q: Quote)
    requires r.killed && r.killReason == KILL_REASON && Shortage(cash, net, sig, q) == ""
    ensures Refusal(cash, net, r, sig, q) == "kill switch active: " + "manual halt (terminal)"
    ensures !FillsNow(cash, net, r, sig, q)
  {
    hide Shortage;
    hide IsQuoted;
    hide Reaches;
    hide Checked;
  }

  // ---------- boot and merge ----------

  /** A booted engine is funded, knows the given symbols, charts the first, and has done nothing else. */
  lemma BootedState(symbols: seq<string>, capital: real, limits: RiskLimits)
    ensures var e := Started(symbols, capital, limits);
      && e.desk.account.cash == capital && e.desk.account.initialCapital == capital
      && e.desk.account.positions == map[] && e.desk.account.closed == []
      && e.desk.risk == RiskState(limits, false, "") && e.desk.fills == [] && e.desk.orders == map[]
      && e.symbols == symbols && e.stockSymbols == [] && e.quotes == map[]
      && (symbols != [] ==> e.focus == symbols[0]) && (symbols == [] ==> e.focus == "")
  {
  }

  /** A merge adds the universe behind the watch list, and charts the first symbol if nothing was charted. */
  lemma MergeAddsTheUniverse(e: EngineState, universe: seq<string>)
    ensures var e' := Merged(e, universe);
      && e.symbols <= e'.symbols
      && (forall s :: s in e'.symbols <==> s in e.symbols || s in universe)
      && (e.focus != "" || e'.symbols == [] ==> e'.focus == e.focus)
      && (e.focus == "" && e'.symbols != [] ==> e'.focus == e'.symbols[0])
      && e' == e.(symbols := e'.symbols, focus := e'.focus)
  {
    JoinedBehind(e.symbols, universe);
  }

  lemma {:induction false} JoinedBehind(symbols: seq<string>, more: seq<string>)
    ensures symbols <= Joined(symbols, more)
    ensures forall s :: s in Joined(symbols, more) <==> s in symbols || s in more
  {
    if more != [] {
      JoinedBehind(symbols, more[..|more| - 1]);
      assert more == more[..|more| - 1] + [more[|more| - 1]];
    }
  }
}
