/** What the two gates, the kill switch and flatten guarantee, for every signal and every run. */
module DeskLaws {
  import opened Types
  import opened Accounting
  import opened Risk
  import opened Matching
  import opened Desk

  // ---------- long-only positions within the limit ----------

  /** Long up to one tolerance, and flat or within the position limit. */
  predicate WithinBounds(net: real, maxPositionQty: real) {
    -EPSILON <= net && (net == 0.0 || Abs(net) <= maxPositionQty)
  }

  ghost predicate PositionsBounded(d: DeskState) {
    forall s: string :: WithinBounds(d.account.NetQty(s), d.risk.limits.maxPositionQty)
  }

  /** What an executed order was checked against before it was sent. */
  lemma ExecutedPassedTheGates(d: DeskState, sig: Signal, market: Quote)
    requires Decide(d, sig, market).Executed?
    ensures var o := NewOrder(d.nextId, sig);
      && !d.risk.killed
      && WithinLimits(d.risk.limits, o, d.account.NetQty(sig.symbol), market)
      && (sig.side == Buy ==> sig.targetQty * ReferencePrice(o, market) <= d.account.cash)
      && (sig.side == Sell ==> sig.targetQty - EPSILON <= d.account.NetQty(sig.symbol))
      && Marketable(o, market)
  {
  }

  lemma FillMovesQuantity(a: Account, f: Fill, s: string)
    requires f.qty > 0.0
    ensures AccountAfter(a, f).NetQty(s) == a.NetQty(s) + if f.symbol == s then f.Signed() else 0.0
  {
  }

  lemma SubmitKeepsPositionsBounded(d: DeskState, sig: Signal, market: Quote)
    requires PositionsBounded(d)
    ensures PositionsBounded(Submit(d, sig, market))
  {
    hide AccountAfter;
    hide Decide;
    var outcome := Decide(d, sig, market);
    if outcome.Executed? {
      ExecutedFill(d, sig, market);
      ExecutedPassedTheGates(d, sig, market);
      forall s: string
        ensures WithinBounds(AccountAfter(d.account, outcome.fill).NetQty(s), d.risk.limits.maxPositionQty)
      {
        FillMovesQuantity(d.account, outcome.fill, s);
        assert WithinBounds(d.account.NetQty(s), d.risk.limits.maxPositionQty);
      }
    }
  }

  /** No run goes short by more than the one tolerance, or past the position limit, in any symbol. */
  lemma {:induction false} RunsStayWithinPositionLimits(capital: real, limits: RiskLimits, actions: seq<Action>)
    ensures PositionsBounded(Run(Opened(capital, limits), actions))
  {
    hide Step;
    if actions != [] {
      var d, a := Run(Opened(capital, limits), actions[..|actions| - 1]), actions[|actions| - 1];
      RunsStayWithinPositionLimits(capital, limits, actions[..|actions| - 1]);
      StepKeepsPositionsBounded(d, a);
    }
  }

  lemma StepKeepsPositionsBounded(d: DeskState, a: Action)
    requires PositionsBounded(d)
    ensures PositionsBounded(Step(d, a))
  {
    StepIsSubmitOrKill(d, a);
    hide Step;
    hide Submit;
    match SignalOf(d, a)
    case Some(sig) => SubmitKeepsPositionsBounded(d, sig, a.market);
    case None =>
      forall s: string ensures Step(d, a).account.NetQty(s) == d.account.NetQty(s) {}
  }

  // ---------- buying power ----------

  /**
   A limit buy against a book without an ask counts as marketable and fills at the bid, whatever
   its limit; every other order is charged no more than the buying-power gate reserved.
   */
  predicate CannotOverspend(sig: Signal, market: Quote) {
    || sig.targetQty <= 0.0
    || sig.symbol == ""
    || sig.side == Sell
    || sig.orderType == Market
    || sig.limitPrice <= 0.0
    || market.ask > 0.0
    || market.bid <= sig.limitPrice
  }

  lemma CashAfterSubmit(d: DeskState, sig: Signal, market: Quote)
    ensures Submit(d, sig, market).account.cash
         == if Decide(d, sig, market).Executed?
            then d.account.cash - SignedQty(sig.side, sig.targetQty) * market.Touch(sig.side)
            else d.account.cash
  {
    hide HoldingAfter;
    hide Decide;
    hide Fill.CashFlow;
    hide Quote.Touch;
    if Decide(d, sig, market).Executed? {
      ExecutedFill(d, sig, market);
      CashOfFill(Decide(d, sig, market).fill);
    }
  }

  lemma CashOfFill(f: Fill)
    ensures f.CashFlow() == -(SignedQty(f.side, f.qty) * f.price)
  {
  }

  lemma ScaleUp(x: real, y: real, n: real)
    requires x <= y && n >= 0.0
    ensures n * x <= n * y
  {
  }

  lemma SolventSubmit(d: DeskState, sig: Signal, market: Quote)
    requires d.account.cash >= 0.0 && CannotOverspend(sig, market)
    ensures Submit(d, sig, market).account.cash >= 0.0
  {
    hide Decide;
    hide Submit;
    hide WithinLimits;
    CashAfterSubmit(d, sig, market);
    if Decide(d, sig, market).Executed? {
      ExecutedFill(d, sig, market);
      ExecutedPassedTheGates(d, sig, market);
      ExecutedTrades(d, sig, market);
      var touch, ref := market.Touch(sig.side), ReferencePrice(NewOrder(d.nextId, sig), market);
      if sig.side == Sell {
        ScaleUp(0.0, touch, sig.targetQty);
      } else {
        assert touch <= ref;
        ScaleUp(touch, ref, sig.targetQty);
      }
    }
  }

  // ---------- desks a run can reach ----------

  /** A state some sequence of actions leads to from some freshly opened desk. */
  ghost predicate Reachable(d: DeskState) {
    exists capital, limits, actions :: d == Run(Opened(capital, limits), actions)
  }

  /** What a sell needs first: a market buy of its quantity on a book quoted at `level`. */
  function Priming(sig: Signal, level: real): seq<Action> {
    if sig.side == Buy then []
    else [SubmitSignal(Signal(sig.symbol, Buy, sig.targetQty, Market, 0.0, "", 0),
                       Quote(sig.symbol, level, level, 0.0, 0.0, 0))]
  }

  /** A desk just opened with limits the order meets when it is checked against `level`. */
  function TightStart(sig: Signal, capital: real, level: real): DeskState {
    Opened(capital, RiskLimits(sig.targetQty, sig.targetQty, sig.targetQty * level))
  }

  /** The same desk once it holds what the order needs. */
  function TightDesk(sig: Signal, capital: real, level: real): DeskState {
    Run(TightStart(sig, capital, level), Priming(sig, level))
  }

  lemma TightDeskIsReached(sig: Signal, capital: real, level: real)
    ensures Reachable(TightDesk(sig, capital, level))
  {
    hide Run;
  }

  lemma BuyDecision(d: DeskState, sig: Signal, market: Quote)
    requires sig.side == Buy && sig.targetQty > 0.0 && sig.symbol != "" && Trades(NewOrder(1, sig), market)
    requires !d.risk.killed && d.account.NetQty(sig.symbol) == 0.0
    requires sig.targetQty <= d.risk.limits.maxOrderQty && sig.targetQty <= d.risk.limits.maxPositionQty
    requires sig.targetQty * NotionalReference(NewOrder(1, sig), market) <= d.risk.limits.maxOrderNotional
    requires sig.targetQty * ReferencePrice(NewOrder(1, sig), market) <= d.account.cash
    ensures Decide(d, sig, market).Executed?
  {
    SameForEveryId(d.nextId, sig, market);
    hide Trades;
    hide NotionalReference;
    hide ReferencePrice;
    assert WithinLimits(d.risk.limits, NewOrder(d.nextId, sig), 0.0, market);
    hide WithinLimits;
    assert BusinessReject(d.account, NewOrder(d.nextId, sig), market) == "";
  }

  lemma SellDecision(d: DeskState, sig: Signal, market: Quote)
    requires sig.side == Sell && sig.targetQty > 0.0 && sig.symbol != "" && Trades(NewOrder(1, sig), market)
    requires !d.risk.killed && d.account.NetQty(sig.symbol) == sig.targetQty
    requires sig.targetQty <= d.risk.limits.maxOrderQty && sig.targetQty <= d.risk.limits.maxPositionQty
    requires sig.targetQty * NotionalReference(NewOrder(1, sig), market) <= d.risk.limits.maxOrderNotional
    ensures Decide(d, sig, market).Executed?
  {
    SameForEveryId(d.nextId, sig, market);
    hide Trades;
    hide NotionalReference;
    assert WithinLimits(d.risk.limits, NewOrder(d.nextId, sig), sig.targetQty, market);
    hide WithinLimits;
    assert BusinessReject(d.account, NewOrder(d.nextId, sig), market) == "";
  }

  lemma SameForEveryId(id: nat, sig: Signal, market: Quote)
    ensures Trades(NewOrder(id, sig), market) == Trades(NewOrder(1, sig), market)
    ensures NotionalReference(NewOrder(id, sig), market) == NotionalReference(NewOrder(1, sig), market)
    ensures ReferencePrice(NewOrder(id, sig), market) == ReferencePrice(NewOrder(1, sig), market)
  {
  }

  /** After the priming buy the desk holds exactly the quantity the sell is for. */
  lemma PrimingHolds(sig: Signal, capital: real, level: real)
    requires sig.side == Sell && sig.targetQty > 0.0 && sig.symbol != "" && level > 0.0
    requires capital == sig.targetQty * level
    ensures var d := TightDesk(sig, capital, level);
      && d.risk == TightStart(sig, capital, level).risk && d.account.NetQty(sig.symbol) == sig.targetQty
  {
    hide Decide;
    hide Submit;
    hide AccountAfter;
    hide Run;
    var a, d := Priming(sig, level)[0], TightStart(sig, capital, level);
    assert Priming(sig, level) == [a];
    OneStep(d, a);
    assert TightDesk(sig, capital, level) == Submit(d, a.sig, a.market);
    BuyDecision(d, a.sig, a.market);
    BuyHolds(d, a.sig, a.market);
  }

  lemma BuyHolds(d: DeskState, sig: Signal, market: Quote)
    requires sig.side == Buy && Decide(d, sig, market).Executed?
    ensures Submit(d, sig, market).risk == d.risk
    ensures Submit(d, sig, market).account.NetQty(sig.symbol) == d.account.NetQty(sig.symbol) + sig.targetQty
  {
    hide Decide;
    hide AccountAfter;
    ExecutedFill(d, sig, market);
    FillMovesQuantity(d.account, Decide(d, sig, market).fill, sig.symbol);
  }

  lemma TightDeskExecutes(sig: Signal, market: Quote, capital: real, level: real)
    requires sig.targetQty > 0.0 && sig.symbol != "" && Trades(NewOrder(1, sig), market)
    requires NotionalReference(NewOrder(1, sig), market) <= level
    requires sig.side == Buy ==> sig.targetQty * ReferencePrice(NewOrder(1, sig), market) <= capital
    requires sig.side == Sell ==> level > 0.0 && capital == sig.targetQty * level
    ensures var d := TightDesk(sig, capital, level);
      && Decide(d, sig, market).Executed?
      && d.risk.limits.maxOrderNotional == sig.targetQty * level
      && (sig.side == Buy ==> d.account.cash == capital)
  {
    hide Trades;
    hide NotionalReference;
    hide ReferencePrice;
    hide Decide;
    ScaleUp(NotionalReference(NewOrder(1, sig), market), level, sig.targetQty);
    if sig.side == Buy {
      BuyDecision(TightDesk(sig, capital, level), sig, market);
    } else {
      PrimingHolds(sig, capital, level);
      hide TightDesk;
      SellDecision(TightDesk(sig, capital, level), sig, market);
    }
  }

  lemma Overspent(capital: real, qty: real, limit: real, bid: real, touch: real)
    requires capital == qty * limit && 0.0 < limit < bid == touch && qty > 0.0
    ensures capital >= 0.0 && capital - qty * touch < 0.0
  {
    ScaleUp(0.0, limit, qty);
    ScaleUpStrictly(limit, bid, qty);
  }

  /** A desk just opened with what the gates reserve for the order. */
  function JustFunded(sig: Signal, market: Quote): DeskState {
    var level := NotionalReference(NewOrder(1, sig), market);
    Opened(sig.targetQty * sig.limitPrice, RiskLimits(sig.targetQty, sig.targetQty, sig.targetQty * level))
  }

  /** The very first order such a desk takes already overspends. */
  lemma InsolventWitness(sig: Signal, market: Quote)
    requires !CannotOverspend(sig, market)
    ensures JustFunded(sig, market).account.cash >= 0.0
    ensures Run(JustFunded(sig, market), [SubmitSignal(sig, market)]).account.cash < 0.0
  {
    hide Decide;
    hide Submit;
    hide NotionalReference;
    var capital, level := sig.targetQty * sig.limitPrice, NotionalReference(NewOrder(1, sig), market);
    var d := JustFunded(sig, market);
    assert d == TightDesk(sig, capital, level);
    TightDeskExecutes(sig, market, capital, level);
    CashAfterSubmit(d, sig, market);
    Overspent(capital, sig.targetQty, sig.limitPrice, market.bid, market.Touch(sig.side));
    OneStep(d, SubmitSignal(sig, market));
  }

  lemma ScaleUpStrictly(x: real, y: real, n: real)
    requires x < y && n > 0.0
    ensures n * x < n * y
  {
  }

  /** Submitting keeps cash non-negative on every desk a run reaches exactly when the order cannot overspend. */
  lemma SolvencyIff(sig: Signal, market: Quote)
    ensures CannotOverspend(sig, market) <==>
      forall d: DeskState | Reachable(d) && d.account.cash >= 0.0 :: Submit(d, sig, market).account.cash >= 0.0
  {
    hide Submit;
    hide Run;
    hide CannotOverspend;
    if CannotOverspend(sig, market) {
      forall d: DeskState | Reachable(d) && d.account.cash >= 0.0
        ensures Submit(d, sig, market).account.cash >= 0.0
      {
        SolventSubmit(d, sig, market);
      }
    } else {
      var d := JustFunded(sig, market);
      InsolventWitness(sig, market);
      OneStep(d, SubmitSignal(sig, market));
      assert Reachable(d) && Submit(d, sig, market).account.cash < 0.0;
    }
  }

  lemma OneStep(d: DeskState, a: Action)
    ensures Run(d, []) == d && Run(d, [a]) == Step(d, a)
  {
    RunAppend(d, [], a);
    assert [] + [a] == [a];
  }

  ghost predicate NeverOverspends(actions: seq<Action>) {
    forall i | 0 <= i < |actions| ::
      actions[i].SubmitSignal? ==> CannotOverspend(actions[i].sig, actions[i].market)
  }

  /** Cash never goes negative in a run of orders that cannot overspend, flattens and kills. */
  lemma {:induction false} RunsStaySolvent(capital: real, limits: RiskLimits, actions: seq<Action>)
    requires capital >= 0.0 && NeverOverspends(actions)
    ensures Run(Opened(capital, limits), actions).account.cash >= 0.0
  {
    if actions != [] {
      var d, a := Run(Opened(capital, limits), actions[..|actions| - 1]), actions[|actions| - 1];
      RunsStaySolvent(capital, limits, actions[..|actions| - 1]);
      StepIsSubmitOrKill(d, a);
      hide Submit;
      hide Step;
      match SignalOf(d, a)
      case Some(sig) => SolventSubmit(d, sig, a.market);
      case None =>
    }
  }

  // ---------- notional ----------

  /** The limit is checked against the crossed side or the mid, the fill is made at the touch. */
  lemma MarketFillNotional(d: DeskState, sig: Signal, market: Quote)
    requires Decide(d, sig, market).Executed? && sig.orderType == Market
    requires market.bid >= 0.0 && market.ask >= 0.0
    ensures var f := Decide(d, sig, market).fill;
      && f.qty * f.price <= 2.0 * d.risk.limits.maxOrderNotional
      && ((if sig.side == Buy then market.ask else market.bid) > 0.0
          ==> f.qty * f.price <= d.risk.limits.maxOrderNotional)
  {
    ExecutedFill(d, sig, market);
    ExecutedPassedTheGates(d, sig, market);
    hide Decide;
    var touch, ref := market.Touch(sig.side), NotionalReference(NewOrder(d.nextId, sig), market);
    assert touch == ref || touch == 2.0 * ref;
    var n := sig.targetQty * ref;
    assert touch == 2.0 * ref ==> sig.targetQty * touch == 2.0 * n;
    ScaleUp(0.0, touch, sig.targetQty);
  }

  /** The fill would not be at a worse price than the one the notional limit was checked at. */
  predicate CheckedAtFillPrice(sig: Signal, market: Quote) {
    var o := NewOrder(1, sig);
    sig.symbol != "" && Trades(o, market) ==> market.Touch(sig.side) <= NotionalReference(o, market)
  }

  /** For a market order that is: the side it crosses is quoted, or no side is. */
  lemma MarketOrderCheckedIff(sig: Signal, market: Quote)
    requires sig.orderType == Market && sig.targetQty > 0.0 && sig.symbol != ""
    ensures CheckedAtFillPrice(sig, market) <==>
      (if sig.side == Buy then market.ask else market.bid) > 0.0 || (market.bid <= 0.0 && market.ask <= 0.0)
  {
  }

  /** Between the price that is checked and the touch the fill is made at. */
  function UncheckedLevel(sig: Signal, market: Quote): real {
    var checked, half := NotionalReference(NewOrder(1, sig), market), 0.5 * market.Touch(sig.side);
    if checked > half then checked else half
  }

  lemma LevelIsBelowTheTouch(sig: Signal, market: Quote)
    requires !CheckedAtFillPrice(sig, market)
    ensures NotionalReference(NewOrder(1, sig), market) <= UncheckedLevel(sig, market) < market.Touch(sig.side)
    ensures 0.0 < UncheckedLevel(sig, market)
  {
  }

  /** A desk a run reaches on which the order fills above the limit it was checked against. */
  lemma NotionalWitness(sig: Signal, market: Quote, capital: real)
    requires !CheckedAtFillPrice(sig, market)
    requires capital == sig.targetQty *
      if sig.side == Buy then ReferencePrice(NewOrder(1, sig), market) else UncheckedLevel(sig, market)
    ensures var d := TightDesk(sig, capital, UncheckedLevel(sig, market));
      && Reachable(d)
      && Decide(d, sig, market).Executed?
      && sig.targetQty * market.Touch(sig.side) > d.risk.limits.maxOrderNotional
  {
    hide Decide;
    hide TightDesk;
    hide UncheckedLevel;
    hide NotionalReference;
    hide ReferencePrice;
    hide Reachable;
    var level := UncheckedLevel(sig, market);
    LevelIsBelowTheTouch(sig, market);
    TightDeskExecutes(sig, market, capital, level);
    TightDeskIsReached(sig, capital, level);
    BeyondTheLimit(TightDesk(sig, capital, level), sig.targetQty, level, market.Touch(sig.side));
  }

  lemma BeyondTheLimit(d: DeskState, qty: real, level: real, touch: real)
    requires d.risk.limits.maxOrderNotional == qty * level && level < touch && qty > 0.0
    ensures qty * touch > d.risk.limits.maxOrderNotional
  {
    ScaleUpStrictly(level, touch, qty);
  }

  /**
   On every desk a run reaches an order is held to the notional limit at its fill price exactly when
   that price was checked.
   */
  lemma NotionalLimitIff(sig: Signal, market: Quote)
    ensures CheckedAtFillPrice(sig, market) <==>
      forall d: DeskState | Reachable(d) && Decide(d, sig, market).Executed? ::
        sig.targetQty * market.Touch(sig.side) <= d.risk.limits.maxOrderNotional
  {
    hide Decide;
    hide Run;
    hide CheckedAtFillPrice;
    if CheckedAtFillPrice(sig, market) {
      forall d: DeskState | Reachable(d) && Decide(d, sig, market).Executed?
        ensures sig.targetQty * market.Touch(sig.side) <= d.risk.limits.maxOrderNotional
      {
        HeldToTheLimit(d, sig, market);
      }
    } else {
      NotionalWitness(sig, market, sig.targetQty *
        if sig.side == Buy then ReferencePrice(NewOrder(1, sig), market) else UncheckedLevel(sig, market));
    }
  }

  lemma HeldToTheLimit(d: DeskState, sig: Signal, market: Quote)
    requires CheckedAtFillPrice(sig, market) && Decide(d, sig, market).Executed?
    ensures sig.targetQty * market.Touch(sig.side) <= d.risk.limits.maxOrderNotional
  {
    hide Decide;
    hide NotionalReference;
    hide ReferencePrice;
    hide Trades;
    hide Quote.Touch;
    ExecutedFill(d, sig, market);
    ExecutedPassedTheGates(d, sig, market);
    ExecutedTrades(d, sig, market);
    ScaleUp(market.Touch(sig.side), NotionalReference(NewOrder(1, sig), market), sig.targetQty);
  }

  lemma ExecutedTrades(d: DeskState, sig: Signal, market: Quote)
    requires Decide(d, sig, market).Executed?
    ensures sig.symbol != "" && Trades(NewOrder(1, sig), market)
    ensures NotionalReference(NewOrder(d.nextId, sig), market) == NotionalReference(NewOrder(1, sig), market)
  {
    SameForEveryId(d.nextId, sig, market);
  }

  ghost predicate MarketOrdersOnQuotes(actions: seq<Action>) {
    forall i | 0 <= i < |actions| :: OnQuote(actions[i])
  }

  predicate OnQuote(a: Action) {
    match a
    case SubmitSignal(sig, market) => sig.orderType == Market && market.bid >= 0.0 && market.ask >= 0.0
    case FlattenSymbol(_, market) => market.bid >= 0.0 && market.ask >= 0.0
    case KillSwitch(_) => true
  }

  predicate NotionalAtMost(f: Fill, bound: real) {
    f.qty * f.price <= bound
  }

  /** Whether the side an action's order would cross is quoted. */
  predicate CrossesAQuotedSide(a: Action) {
    match a
    case SubmitSignal(sig, market) => (if sig.side == Buy then market.ask else market.bid) > 0.0
    case FlattenSymbol(_, market) => market.bid > 0.0
    case KillSwitch(_) => false
  }

  /** The actions of a run that filled, in order: one per journalled fill. */
  function Fillers(d: DeskState, actions: seq<Action>): seq<Action> {
    if actions == [] then []
    else
      var earlier, a := actions[..|actions| - 1], actions[|actions| - 1];
      var before := Run(d, earlier);
      Fillers(d, earlier) + if |Step(before, a).fills| > |before.fills| then [a] else []
  }

  /** A fill does what its action asked, within the limit if that crosses a quoted side, else within twice it. */
  ghost predicate FilledWithin(f: Fill, a: Action, limits: RiskLimits) {
    && (a.SubmitSignal? ==> f.symbol == a.sig.symbol && f.side == a.sig.side && f.qty == a.sig.targetQty)
    && (a.FlattenSymbol? ==> f.symbol == a.symbol && f.side == Sell)
    && NotionalAtMost(f, 2.0 * limits.maxOrderNotional)
    && (CrossesAQuotedSide(a) ==> NotionalAtMost(f, limits.maxOrderNotional))
  }

  lemma StepFillIsBounded(d: DeskState, a: Action)
    requires OnQuote(a)
    ensures var d' := Step(d, a);
      || d'.fills == d.fills
      || (|d'.fills| == |d.fills| + 1 && d'.fills[..|d.fills|] == d.fills
          && FilledWithin(d'.fills[|d.fills|], a, d.risk.limits))
  {
    StepIsSubmitOrKill(d, a);
    hide Step;
    hide AccountAfter;
    match SignalOf(d, a)
    case Some(sig) =>
      if Decide(d, sig, a.market).Executed? {
        ExecutedFill(d, sig, a.market);
        MarketFillNotional(d, sig, a.market);
      }
      hide Decide;
    case None =>
  }

  /** Over any run of market orders every journalled fill does what one action asked, within its bound. */
  lemma {:induction false} RunsBoundNotional(capital: real, limits: RiskLimits, actions: seq<Action>)
    requires MarketOrdersOnQuotes(actions)
    ensures var d, makers := Run(Opened(capital, limits), actions), Fillers(Opened(capital, limits), actions);
      && d.risk.limits == limits
      && |makers| == |d.fills|
      && forall i | 0 <= i < |d.fills| :: FilledWithin(d.fills[i], makers[i], limits)
  {
    hide Step;
    hide FilledWithin;
    if actions != [] {
      var earlier, a := actions[..|actions| - 1], actions[|actions| - 1];
      var d, makers := Run(Opened(capital, limits), earlier), Fillers(Opened(capital, limits), earlier);
      RunsBoundNotional(capital, limits, earlier);
      StepIsSubmitOrKill(d, a);
      assert OnQuote(a);
      StepFillIsBounded(d, a);
      var fills, makers' := Step(d, a).fills, Fillers(Opened(capital, limits), actions);
      forall i | 0 <= i < |fills|
        ensures FilledWithin(fills[i], makers'[i], limits)
      {
        if i < |d.fills| {
          assert fills[i] == d.fills[i] && makers'[i] == makers[i];
        }
      }
    }
  }

  // ---------- kill switch ----------

  /** Nothing traded between two states, the switch is still on and every order that changed was refused. */
  ghost predicate Frozen(d: DeskState, d': DeskState) {
    && d'.risk.killed
    && d'.account == d.account && d'.fills == d.fills && d'.seqNo == d.seqNo
    && d.nextId <= d'.nextId
    && (forall id | id in d'.orders ::
          d'.orders[id].status == Rejected || (id in d.orders && d'.orders[id] == d.orders[id]))
  }

  lemma KilledSubmit(d: DeskState, sig: Signal, market: Quote)
    requires d.risk.killed
    ensures Frozen(d, Submit(d, sig, market))
  {
  }

  /** Once killed, no sequence of actions ever trades again. */
  lemma {:induction false} KilledRunsAreFrozen(d: DeskState, actions: seq<Action>)
    requires d.risk.killed
    ensures Frozen(d, Run(d, actions))
  {
    if actions != [] {
      var earlier, a := Run(d, actions[..|actions| - 1]), actions[|actions| - 1];
      KilledRunsAreFrozen(d, actions[..|actions| - 1]);
      KilledStep(d, earlier, a);
    }
  }

  lemma KilledStep(d: DeskState, earlier: DeskState, a: Action)
    requires Frozen(d, earlier)
    ensures Frozen(d, Step(earlier, a))
  {
    StepIsSubmitOrKill(earlier, a);
    hide Step;
    hide Submit;
    match SignalOf(earlier, a)
    case Some(sig) => KilledSubmit(earlier, sig, a.market);
    case None =>
  }

  // ---------- flatten ----------

  /** What a flatten needs beyond a long position: no kill, limits that admit it, a quoted book. */
  predicate FlattenAdmitted(d: DeskState, symbol: string, market: Quote) {
    var net := d.account.NetQty(symbol);
    var ref := if market.bid > 0.0 then market.bid else market.Mid();
    && !d.risk.killed
    && net <= d.risk.limits.maxOrderQty
    && net * ref <= d.risk.limits.maxOrderNotional
    && 0.0 <= d.risk.limits.maxPositionQty
    && (market.bid > 0.0 || market.ask > 0.0)
  }

  lemma FlattenDecision(d: DeskState, symbol: string, market: Quote)
    requires symbol != "" && d.account.NetQty(symbol) > EPSILON
    ensures var sig := FlattenSignal(symbol, d.account.NetQty(symbol), market);
      FlattenAdmitted(d, symbol, market) <==> Decide(d, sig, market).Executed?
  {
    TouchIsPositive(market, Sell);
  }

  /** A flatten of a long position ends exactly flat precisely when it is admitted. */
  lemma FlattenIff(d: DeskState, symbol: string, market: Quote)
    requires symbol != "" && d.account.NetQty(symbol) > EPSILON
    ensures Flatten(d, symbol, market).account.NetQty(symbol) == 0.0 <==> FlattenAdmitted(d, symbol, market)
    ensures !FlattenAdmitted(d, symbol, market) ==> Flatten(d, symbol, market).account == d.account
  {
    var sig := FlattenSignal(symbol, d.account.NetQty(symbol), market);
    FlattenDecision(d, symbol, market);
    hide Decide;
    hide FlattenAdmitted;
    if Decide(d, sig, market).Executed? {
      ExecutedFill(d, sig, market);
    }
  }

  /** An admitted flatten sells everything at the touch, books one closed record, and is then a no-op. */
  lemma FlattenCloses(d: DeskState, symbol: string, market: Quote)
    requires symbol != "" && d.account.NetQty(symbol) > EPSILON && FlattenAdmitted(d, symbol, market)
    ensures var d' := Flatten(d, symbol, market);
      var net, touch := d.account.NetQty(symbol), market.Touch(Sell);
      && d'.account.NetQty(symbol) == 0.0
      && d'.account.cash == d.account.cash + net * touch
      && |d'.account.closed| == |d.account.closed| + 1
      && d'.account.closed[..|d.account.closed|] == d.account.closed
      && var r := d'.account.closed[|d.account.closed|];
      && r.symbol == symbol && r.qty == net
      && r.avgEntry == d.account.PositionOf(symbol).avgPrice && r.exitPrice == touch
      && r.realizedPnl == r.qty * (r.exitPrice - r.avgEntry)
      && Flatten(d', symbol, market) == d'
  {
    var sig := FlattenSignal(symbol, d.account.NetQty(symbol), market);
    FlattenDecision(d, symbol, market);
    FlattenIff(d, symbol, market);
    ExecutedFill(d, sig, market);
    ClosingRecordPnl(d.account.PositionOf(symbol), Decide(d, sig, market).fill);
    hide Decide;
    hide HoldingAfter;
  }
}
