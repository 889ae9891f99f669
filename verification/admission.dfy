/**
 What the desk does with a signal, read off cash, net quantity, limits, kill switch and the quote
 alone: exactly which orders fill, at what price, and the words every other one is left with.
 */
module Admission {
  import opened Types
  import opened Accounting
  import opened Risk
  import opened Journal
  import opened Matching
  import opened Desk
  import opened DeskLaws

  // ---------- the quote ----------

  predicate IsQuoted(q: Quote) {
    q.bid > 0.0 || q.ask > 0.0
  }

  /** The side an order crosses if that is quoted, else the other one, else half the sum. */
  function Price(side: Side, q: Quote): real {
    if side == Buy && q.ask > 0.0 then q.ask
    else if side == Sell && q.bid > 0.0 then q.bid
    else if q.bid > 0.0 then q.bid
    else if q.ask > 0.0 then q.ask
    else 0.5 * (q.bid + q.ask)
  }

  /** What buying power is held against: a positive limit, else the price. */
  function Reserve(sig: Signal, q: Quote): real {
    if sig.orderType == Limit && sig.limitPrice > 0.0 then sig.limitPrice else Price(sig.side, q)
  }

  /** What the notional limit is held against: a positive limit or crossed side, else half the sum. */
  function Checked(sig: Signal, q: Quote): real {
    if sig.orderType == Limit && sig.limitPrice > 0.0 then sig.limitPrice
    else if sig.orderType == Market && sig.side == Buy && q.ask > 0.0 then q.ask
    else if sig.orderType == Market && sig.side == Sell && q.bid > 0.0 then q.bid
    else 0.5 * (q.bid + q.ask)
  }

  predicate Reaches(sig: Signal, q: Quote) {
    || sig.orderType == Market
    || (sig.side == Buy && q.ask <= sig.limitPrice)
    || (sig.side == Sell && sig.limitPrice <= q.bid)
  }

  lemma PricesAgree(id: nat, sig: Signal, q: Quote)
    ensures var o := NewOrder(id, sig);
      && q.Touch(sig.side) == Price(sig.side, q)
      && ReferencePrice(o, q) == Reserve(sig, q)
      && NotionalReference(o, q) == Checked(sig, q)
  {
  }

  // ---------- the risk gate ----------

  /** The answer of the risk gate, limit by limit: the first one breached is the one reported. */
  lemma VerdictIff(r: RiskState, id: nat, sig: Signal, net: real, q: Quote)
    ensures var verdict := Verdict(r, NewOrder(id, sig), net, q);
      var qty, after := sig.targetQty, if sig.side == Buy then net + sig.targetQty else net - sig.targetQty;
      && (verdict == Allowed <==>
            && !r.killed
            && 0.0 < qty <= r.limits.maxOrderQty
            && qty * Checked(sig, q) <= r.limits.maxOrderNotional
            && -r.limits.maxPositionQty <= after <= r.limits.maxPositionQty)
      && verdict ==
           if r.killed then Denied("kill switch active: " + r.killReason)
           else if qty <= 0.0 then Denied("non-positive order qty")
           else if qty > r.limits.maxOrderQty then Denied("order qty exceeds max_order_qty")
           else if qty * Checked(sig, q) > r.limits.maxOrderNotional
           then Denied("order notional exceeds max_order_notional")
           else if after > r.limits.maxPositionQty || after < -r.limits.maxPositionQty
           then Denied("projected position exceeds max_position_qty")
           else Allowed
  {
    PricesAgree(id, sig, q);
    hide NotionalReference;
    hide Checked;
  }

  // ---------- both gates and the book ----------

  /** What the account has against an order: too little cash to buy, too little held to sell. */
  function Shortage(cash: real, net: real, sig: Signal, q: Quote): string {
    if sig.side == Buy && cash < sig.targetQty * Reserve(sig, q) then "insufficient buying power"
    else if sig.side == Sell && net < sig.targetQty - 0.000000000001 then "insufficient position (no shorting)"
    else ""
  }

  /** What the risk gate has against an order of positive quantity: the first limit it breaches. */
  function Breach(net: real, r: RiskState, sig: Signal, q: Quote): string {
    var after := if sig.side == Buy then net + sig.targetQty else net - sig.targetQty;
    if r.killed then "kill switch active: " + r.killReason
    else if sig.targetQty > r.limits.maxOrderQty then "order qty exceeds max_order_qty"
    else if sig.targetQty * Checked(sig, q) > r.limits.maxOrderNotional then "order notional exceeds max_order_notional"
    else if after > r.limits.maxPositionQty || after < -r.limits.maxPositionQty
    then "projected position exceeds max_position_qty"
    else ""
  }

  /** Why an order is refused: the first gate it fails, or nothing. */
  function Refusal(cash: real, net: real, r: RiskState, sig: Signal, q: Quote): string {
    if Shortage(cash, net, sig, q) != "" then Shortage(cash, net, sig, q) else Breach(net, r, sig, q)
  }

  predicate FillsNow(cash: real, net: real, r: RiskState, sig: Signal, q: Quote) {
    Refusal(cash, net, r, sig, q) == "" && IsQuoted(q) && Reaches(sig, q)
  }

  lemma BusinessRejectIff(a: Account, id: nat, sig: Signal, q: Quote)
    ensures BusinessReject(a, NewOrder(id, sig), q) == Shortage(a.cash, a.NetQty(sig.symbol), sig, q)
  {
    hide ReferencePrice;
    hide Reserve;
    PricesAgree(id, sig, q);
  }

  lemma BreachIff(r: RiskState, id: nat, sig: Signal, net: real, q: Quote)
    requires sig.targetQty > 0.0
    ensures var why := Breach(net, r, sig, q);
      Verdict(r, NewOrder(id, sig), net, q) == if why == "" then Allowed else Denied(why)
  {
    hide Verdict;
    hide Checked;
    VerdictIff(r, id, sig, net, q);
  }

  lemma TradesIff(id: nat, sig: Signal, q: Quote, seqNo: int)
    requires sig.targetQty > 0.0
    ensures Trades(NewOrder(id, sig), q) <==> IsQuoted(q) && Reaches(sig, q)
    ensures Execution(NewOrder(id, sig), q, seqNo)
         == Fill(id, sig.symbol, sig.side, sig.targetQty, Price(sig.side, q), q.ts + seqNo + 1)
  {
    PricesAgree(id, sig, q);
    TouchIsPositive(q, sig.side);
  }

  lemma DecideIff(d: DeskState, sig: Signal, q: Quote)
    requires sig.targetQty > 0.0 && sig.symbol != ""
    ensures var why := Refusal(d.account.cash, d.account.NetQty(sig.symbol), d.risk, sig, q);
      Decide(d, sig, q) ==
        if why != "" then Refused(why)
        else if IsQuoted(q) && Reaches(sig, q)
        then Executed(Fill(d.nextId, sig.symbol, sig.side, sig.targetQty, Price(sig.side, q), q.ts + d.seqNo + 1))
        else Resting
  {
    hide BusinessReject;
    hide Verdict;
    hide Trades;
    hide Execution;
    hide IsQuoted;
    hide Reaches;
    var net := d.account.NetQty(sig.symbol);
    BusinessRejectIff(d.account, d.nextId, sig, q);
    BreachIff(d.risk, d.nextId, sig, net, q);
    TradesIff(d.nextId, sig, q, d.seqNo);
    hide Shortage;
    hide Breach;
    hide Price;
  }

  /** The order a signal becomes, whatever becomes of it. */
  function OrderFor(id: nat, sig: Signal, filled: real, avg: real, status: OrderStatus, reason: string): Order {
    Order(id, sig.symbol, sig.side, sig.orderType, sig.targetQty, sig.limitPrice, filled, avg, status,
          sig.strategy, reason, sig.ts)
  }

  /** Cash and quantity move by the trade and no other symbol is touched. */
  ghost predicate MovedBy(a: Account, a': Account, sig: Signal, price: real) {
    var qty := sig.targetQty;
    && a'.initialCapital == a.initialCapital
    && a'.cash == (if sig.side == Buy then a.cash - qty * price else a.cash + qty * price)
    && a'.NetQty(sig.symbol) == (if sig.side == Buy then a.NetQty(sig.symbol) + qty else a.NetQty(sig.symbol) - qty)
    && (forall s: string | s != sig.symbol :: a'.PositionOf(s) == a.PositionOf(s))
  }

  /** All that a submit does, for every signal, quote and desk. */
  lemma SubmitIff(d: DeskState, sig: Signal, q: Quote)
    requires sig.targetQty > 0.0 && sig.symbol != ""
    ensures var d' := Submit(d, sig, q);
      var why := Refusal(d.account.cash, d.account.NetQty(sig.symbol), d.risk, sig, q);
      var price := Price(sig.side, q);
      && d'.risk == d.risk && d'.faults == d.faults && d'.nextId == d.nextId + 1
      && (if why != "" then
            && d'.account == d.account && d'.fills == d.fills && d'.seqNo == d.seqNo
            && d'.orders == d.orders[d.nextId := OrderFor(d.nextId, sig, 0.0, 0.0, Rejected, why)]
          else if !IsQuoted(q) || !Reaches(sig, q) then
            && d'.account == d.account && d'.fills == d.fills && d'.seqNo == d.seqNo
            && d'.orders == d.orders[d.nextId := OrderFor(d.nextId, sig, 0.0, 0.0, Sent, "")]
          else
            && MovedBy(d.account, d'.account, sig, price)
            && d'.fills == d.fills + [Fill(d.nextId, sig.symbol, sig.side, sig.targetQty, price, q.ts + d.seqNo + 1)]
            && d'.seqNo == d.seqNo + 1
            && d'.orders == d.orders[d.nextId := OrderFor(d.nextId, sig, sig.targetQty, price, Filled, "")])
  {
    DecideIff(d, sig, q);
    hide Decide;
    hide Refusal;
    hide IsQuoted;
    hide Reaches;
    hide Price;
    hide AccountAfter;
    hide MovedBy;
    if Decide(d, sig, q).Executed? {
      FillMoves(d.account, Decide(d, sig, q).fill, sig);
    }
  }

  lemma FillMoves(a: Account, f: Fill, sig: Signal)
    requires f.symbol == sig.symbol && f.side == sig.side && f.qty == sig.targetQty && f.qty > 0.0
    ensures MovedBy(a, AccountAfter(a, f), sig, f.price)
  {
    FillMovesQuantity(a, f, sig.symbol);
    hide HoldingAfter;
  }

  /** A signal without a positive quantity or a symbol leaves no trace at all. */
  lemma DegenerateSignal(d: DeskState, sig: Signal, q: Quote)
    ensures Submit(d, sig, q) == d <==> sig.targetQty <= 0.0 || sig.symbol == ""
  {
    if sig.targetQty > 0.0 && sig.symbol != "" {
      SubmitIff(d, sig, q);
      hide Submit;
    }
  }

  // ---------- market orders, spelled out ----------

  lemma MarketPrices(sig: Signal, q: Quote)
    requires sig.orderType == Market
    ensures Reaches(sig, q) && Reserve(sig, q) == Price(sig.side, q)
    ensures sig.side == Sell ==> Checked(sig, q) == if q.bid > 0.0 then q.bid else 0.5 * (q.bid + q.ask)
    ensures sig.side == Buy ==> Checked(sig, q) == if q.ask > 0.0 then q.ask else 0.5 * (q.bid + q.ask)
    ensures sig.side == Buy && IsQuoted(q) ==> Price(Buy, q) == if q.ask > 0.0 then q.ask else q.bid
    ensures sig.side == Sell && IsQuoted(q) ==> Price(Sell, q) == if q.bid > 0.0 then q.bid else q.ask
  {
  }

  /** A market sell fills exactly under these conditions, and takes one fill at the better quoted side. */
  lemma MarketSellIff(d: DeskState, sig: Signal, q: Quote)
    requires sig.targetQty > 0.0 && sig.symbol != "" && sig.side == Sell && sig.orderType == Market
    ensures var d', qty, net := Submit(d, sig, q), sig.targetQty, d.account.NetQty(sig.symbol);
      |d'.fills| == |d.fills| + 1 <==>
        && !d.risk.killed
        && (q.bid > 0.0 || q.ask > 0.0)
        && qty <= net + 0.000000000001
        && qty <= d.risk.limits.maxOrderQty
        && qty * (if q.bid > 0.0 then q.bid else 0.5 * (q.bid + q.ask)) <= d.risk.limits.maxOrderNotional
        && -d.risk.limits.maxPositionQty <= net - qty <= d.risk.limits.maxPositionQty
  {
    hide Submit;
    hide Checked;
    hide Reserve;
    hide Price;
    hide Reaches;
    hide MovedBy;
    SubmitIff(d, sig, q);
    MarketPrices(sig, q);
  }

  /** A market buy likewise, with its cost at the crossed or only quoted side within the cash. */
  lemma MarketBuyIff(d: DeskState, sig: Signal, q: Quote)
    requires sig.targetQty > 0.0 && sig.symbol != "" && sig.side == Buy && sig.orderType == Market
    ensures var d', qty, net := Submit(d, sig, q), sig.targetQty, d.account.NetQty(sig.symbol);
      |d'.fills| == |d.fills| + 1 <==>
        && !d.risk.killed
        && (q.bid > 0.0 || q.ask > 0.0)
        && qty * (if q.ask > 0.0 then q.ask else q.bid) <= d.account.cash
        && qty <= d.risk.limits.maxOrderQty
        && qty * (if q.ask > 0.0 then q.ask else 0.5 * (q.bid + q.ask)) <= d.risk.limits.maxOrderNotional
        && -d.risk.limits.maxPositionQty <= net + qty <= d.risk.limits.maxPositionQty
  {
    hide Submit;
    hide Checked;
    hide Reserve;
    hide Price;
    hide Reaches;
    hide MovedBy;
    SubmitIff(d, sig, q);
    MarketPrices(sig, q);
  }

  /** Selling part of a long position leaves the rest at the same average and realizes the part's profit. */
  lemma PartialSellKeepsTheAverage(d: DeskState, sig: Signal, q: Quote)
    requires sig.side == Sell && sig.symbol != "" && 0.0 < sig.targetQty < d.account.NetQty(sig.symbol)
    requires FillsNow(d.account.cash, d.account.NetQty(sig.symbol), d.risk, sig, q)
    ensures var p, p' := d.account.PositionOf(sig.symbol), Submit(d, sig, q).account.PositionOf(sig.symbol);
      && p'.netQty == p.netQty - sig.targetQty
      && p'.avgPrice == p.avgPrice
      && p'.realizedPnl == p.realizedPnl + (Price(Sell, q) - p.avgPrice) * sig.targetQty
      && Submit(d, sig, q).account.closed == d.account.closed
  {
    DecideIff(d, sig, q);
    hide Decide;
    hide Refusal;
    hide Price;
    PartialReduction(d.account.PositionOf(sig.symbol), Decide(d, sig, q).fill);
    hide HoldingAfter;
  }

  lemma PartialReduction(p: Holding, f: Fill)
    requires f.side == Sell && 0.0 < f.qty < p.netQty
    ensures HoldingAfter(p, f) == Holding(p.netQty - f.qty, p.avgPrice, p.realizedPnl + (f.price - p.avgPrice) * f.qty)
  {
  }

  // ---------- the fill callback on its own ----------

  /** What one fill does to its order: totals, average, and a status only a live order changes. */
  ghost predicate ProgressedBy(o: Order, o': Order, f: Fill) {
    && o' == o.(filledQty := o'.filledQty, avgFillPrice := o'.avgFillPrice, status := o'.status)
    && o'.filledQty == o.filledQty + f.qty
    && (o'.filledQty > 0.0 ==> o'.avgFillPrice * o'.filledQty == o.avgFillPrice * o.filledQty + f.price * f.qty)
    && o'.status == if o.status != Sent && o.status != PartiallyFilled then o.status
                    else if o.qty - o'.filledQty <= 0.000000000001 then Filled
                    else PartiallyFilled
  }

  /** A fill for a known order books it; one for an order at rest or unknown is reported as well. */
  lemma FillCallback(d: DeskState, f: Fill)
    requires f.qty > 0.0
    ensures var d' := AfterFill(d, f);
      if f.orderId !in d.orders then d' == d.(faults := d.faults + [UnknownOrder(f.orderId)])
      else
        var o := d.orders[f.orderId];
        && f.orderId in d'.orders && d'.orders == d.orders[f.orderId := d'.orders[f.orderId]]
        && ProgressedBy(o, d'.orders[f.orderId], f)
        && d'.fills == d.fills + [f]
        && d'.account.cash == d.account.cash + f.CashFlow()
        && d'.account.NetQty(f.symbol) == d.account.NetQty(f.symbol) + f.Signed()
        && d'.faults == (if o.status == Sent || o.status == PartiallyFilled then d.faults
                         else d.faults + [IllegalTransition(o.id, o.status,
                                if o.qty - (o.filledQty + f.qty) <= 0.000000000001 then Filled
                                else PartiallyFilled)])
        && d'.risk == d.risk && d'.nextId == d.nextId && d'.seqNo == d.seqNo
  {
    FillMovesQuantity(d.account, f, f.symbol);
    if f.orderId in d.orders {
      BlendedIs(d.orders[f.orderId], f);
    }
    hide BlendedPrice;
    hide HoldingAfter;
    hide Fill.CashFlow;
  }

  lemma BlendedIs(o: Order, f: Fill)
    ensures o.filledQty + f.qty > 0.0 ==>
      BlendedPrice(o, f) * (o.filledQty + f.qty) == o.avgFillPrice * o.filledQty + f.price * f.qty
  {
  }

  // ---------- over runs ----------

  ghost predicate QuantitiesBounded(fills: Fills, limits: RiskLimits) {
    forall i | 0 <= i < |fills| :: fills[i].qty <= limits.maxOrderQty
  }

  lemma StepBoundsQuantity(d: DeskState, a: Action)
    requires QuantitiesBounded(d.fills, d.risk.limits)
    ensures QuantitiesBounded(Step(d, a).fills, d.risk.limits)
  {
    StepIsSubmitOrKill(d, a);
    hide Step;
    match SignalOf(d, a)
    case None =>
    case Some(sig) =>
      if sig.targetQty > 0.0 && sig.symbol != "" {
        SubmitIff(d, sig, a.market);
      } else {
        DegenerateSignal(d, sig, a.market);
      }
      hide Submit;
      hide Price;
      hide Checked;
      hide Reserve;
  }

  /** No run ever journals a fill larger than the order quantity limit. */
  lemma {:induction false} RunsBoundQuantity(capital: real, limits: RiskLimits, actions: seq<Action>)
    ensures var fills := Run(Opened(capital, limits), actions).fills;
      forall i | 0 <= i < |fills| :: fills[i].qty <= limits.maxOrderQty
  {
    hide Step;
    if actions != [] {
      var earlier := actions[..|actions| - 1];
      RunsBoundQuantity(capital, limits, earlier);
      RunsAreJournalled(capital, limits, earlier);
      StepBoundsQuantity(Run(Opened(capital, limits), earlier), actions[|actions| - 1]);
    }
  }
}
