/**
 The order desk as a state machine over values: what one signal, one flatten or the kill switch
 does to orders, journal, risk state and account, and what every run of them keeps.
 */
module Desk {
  import opened Types
  import opened Accounting
  import opened Journal
  import opened Risk
  import opened Matching

  predicate Legal(from: OrderStatus, to: OrderStatus) {
    match from
    case New => to == Sent || to == Rejected
    case Sent => to == PartiallyFilled || to == Filled || to == Cancelled || to == Rejected
    case PartiallyFilled => to == PartiallyFilled || to == Filled || to == Cancelled
    case _ => false
  }

  /** What the order manager reports when a call breaks its protocol. */
  datatype Fault = IllegalTransition(id: nat, from: OrderStatus, to: OrderStatus) | UnknownOrder(id: nat)

  datatype DeskState = DeskState(account: Account, risk: RiskState, seqNo: int, nextId: nat,
                                 orders: map<nat, Order>, fills: Fills, faults: seq<Fault>)

  function Opened(capital: real, limits: RiskLimits): DeskState {
    DeskState(Funded(capital), RiskState(limits, false, ""), 0, 1, map[], [], [])
  }

  // ---------- one operation ----------

  function NewOrder(id: nat, sig: Signal): Order {
    Order(id, sig.symbol, sig.side, sig.orderType, sig.targetQty, sig.limitPrice, 0.0, 0.0, New,
          sig.strategy, "", sig.ts)
  }

  function ReferencePrice(o: Order, market: Quote): real {
    if o.orderType == Limit && o.limitPrice > 0.0 then o.limitPrice else market.Touch(o.side)
  }

  /** The account rules of long-only spot: why the order may not be sent, or nothing. */
  function BusinessReject(a: Account, o: Order, market: Quote): string {
    if o.side == Buy && a.cash < o.qty * ReferencePrice(o, market) then "insufficient buying power"
    else if o.side == Sell && a.NetQty(o.symbol) < o.qty - EPSILON then "insufficient position (no shorting)"
    else ""
  }

  datatype Outcome = Ignored | Refused(reason: string) | Resting | Executed(fill: Fill)

  function Decide(d: DeskState, sig: Signal, market: Quote): Outcome {
    var o := NewOrder(d.nextId, sig);
    var biz := BusinessReject(d.account, o, market);
    if sig.targetQty <= 0.0 || sig.symbol == "" then Ignored
    else if biz != "" then Refused(biz)
    else match Verdict(d.risk, o, d.account.NetQty(o.symbol), market)
      case Denied(reason) => Refused(reason)
      case Allowed => if Trades(o, market) then Executed(Execution(o, market, d.seqNo)) else Resting
  }

  /** The order as it is left for good when its submit returns. */
  function Settled(o: Order, outcome: Outcome): Order {
    match outcome
    case Refused(reason) => o.(status := Rejected, rejectReason := reason)
    case Executed(f) => o.(status := Filled, filledQty := f.qty, avgFillPrice := f.price)
    case _ => o.(status := Sent)
  }

  function Submit(d: DeskState, sig: Signal, market: Quote): DeskState {
    var outcome := Decide(d, sig, market);
    if outcome == Ignored then d
    else
      var placed := d.(nextId := d.nextId + 1,
                       orders := d.orders[d.nextId := Settled(NewOrder(d.nextId, sig), outcome)]);
      if outcome.Executed? then
        placed.(account := AccountAfter(d.account, outcome.fill), seqNo := d.seqNo + 1,
                fills := d.fills + [outcome.fill])
      else placed
  }

  function FlattenSignal(symbol: string, net: real, market: Quote): Signal {
    Signal(symbol, Sell, net, Market, 0.0, "flatten", market.ts)
  }

  function Flatten(d: DeskState, symbol: string, market: Quote): DeskState {
    var net := d.account.NetQty(symbol);
    if net <= EPSILON then d else Submit(d, FlattenSignal(symbol, net, market), market)
  }

  function Kill(d: DeskState, reason: string): DeskState {
    d.(risk := d.risk.(killed := true, killReason := reason))
  }

  /** The average price of an order's fills once `f` is among them. */
  function BlendedPrice(o: Order, f: Fill): real {
    var filled := o.filledQty + f.qty;
    if filled > 0.0 then (o.avgFillPrice * o.filledQty + f.price * f.qty) / filled else o.avgFillPrice
  }

  /** The order a fill belongs to, moved on by it; an illegal move is reported instead. */
  function Progressed(d: DeskState, f: Fill): DeskState
    requires f.orderId in d.orders
  {
    var o := d.orders[f.orderId];
    var o' := o.(filledQty := o.filledQty + f.qty, avgFillPrice := BlendedPrice(o, f));
    var to := if o'.Leaves() <= EPSILON then Filled else PartiallyFilled;
    if Legal(o.status, to) then d.(orders := d.orders[f.orderId := o'.(status := to)])
    else d.(orders := d.orders[f.orderId := o'],
            faults := d.faults + [IllegalTransition(o.id, o.status, to)])
  }

  /** The public fill callback on its own, with both of its diagnostics. */
  function AfterFill(d: DeskState, f: Fill): DeskState
    requires f.qty > 0.0
  {
    if f.orderId !in d.orders then d.(faults := d.faults + [UnknownOrder(f.orderId)])
    else Progressed(d, f).(account := AccountAfter(d.account, f), fills := d.fills + [f])
  }

  // ---------- runs ----------

  datatype Action = SubmitSignal(sig: Signal, market: Quote)
                  | FlattenSymbol(symbol: string, market: Quote)
                  | KillSwitch(reason: string)

  function Step(d: DeskState, a: Action): DeskState {
    match a
    case SubmitSignal(sig, market) => Submit(d, sig, market)
    case FlattenSymbol(symbol, market) => Flatten(d, symbol, market)
    case KillSwitch(reason) => Kill(d, reason)
  }

  function Run(d: DeskState, actions: seq<Action>): DeskState {
    if actions == [] then d
    else Step(Run(d, actions[..|actions| - 1]), actions[|actions| - 1])
  }

  /** The signal an action ends up submitting in state `d`, if any. */
  function SignalOf(d: DeskState, a: Action): Option<Signal> {
    match a
    case SubmitSignal(sig, _) => Some(sig)
    case FlattenSymbol(symbol, market) =>
      var net := d.account.NetQty(symbol);
      if net <= EPSILON then None else Some(FlattenSignal(symbol, net, market))
    case KillSwitch(_) => None
  }

  /** Every action either submits its signal or leaves all but the kill switch alone. */
  lemma StepIsSubmitOrKill(d: DeskState, a: Action)
    ensures match SignalOf(d, a)
      case Some(sig) => !a.KillSwitch? && Step(d, a) == Submit(d, sig, a.market)
      case None => Step(d, a) == d.(risk := Step(d, a).risk)
                   && (Step(d, a).risk.killed <==> d.risk.killed || a.KillSwitch?)
    ensures Step(d, a).risk.limits == d.risk.limits
  {
  }

  // ---------- order life cycle and journal ----------

  predicate SettledOrder(o: Order) {
    && o.qty > 0.0
    && (o.status == Rejected || o.status == Filled || o.status == Sent)
    && o.filledQty == if o.status == Filled then o.qty else 0.0
  }

  /** Ids are exactly 1..nextId-1, every order is settled and no protocol fault was ever reported. */
  ghost predicate OrderBook(d: DeskState) {
    && d.nextId >= 1
    && d.faults == []
    && (forall id :: id in d.orders <==> 1 <= id < d.nextId)
    && (forall id | id in d.orders :: d.orders[id].id == id && SettledOrder(d.orders[id]))
  }

  function FilledQty(fills: Fills, id: nat): real {
    if fills == [] then 0.0
    else
      var f := fills[|fills| - 1];
      FilledQty(fills[..|fills| - 1], id) + if f.orderId == id then f.qty else 0.0
  }

  function FilledNotional(fills: Fills, id: nat): real {
    if fills == [] then 0.0
    else
      var f := fills[|fills| - 1];
      FilledNotional(fills[..|fills| - 1], id) + if f.orderId == id then f.qty * f.price else 0.0
  }

  ghost predicate Shows(o: Order, filled: real, notional: real) {
    o.filledQty == filled <= o.qty && o.avgFillPrice * o.filledQty == notional
  }

  /** The journal explains the account and every order. */
  ghost predicate Journalled(d: DeskState, capital: real) {
    && d.account == Replay(Funded(capital), d.fills)
    && (forall i | 0 <= i < |d.fills| :: 1 <= d.fills[i].orderId < d.nextId)
    && (forall id | id in d.orders ::
          Shows(d.orders[id], FilledQty(d.fills, id), FilledNotional(d.fills, id)))
  }

  lemma {:induction false} UnusedIdHasNoFills(fills: Fills, id: nat)
    requires forall i | 0 <= i < |fills| :: fills[i].orderId < id
    ensures FilledQty(fills, id) == 0.0 && FilledNotional(fills, id) == 0.0
  {
    if fills != [] {
      UnusedIdHasNoFills(fills[..|fills| - 1], id);
    }
  }

  /** A fill is for the order just created: its whole quantity at the touch. */
  lemma ExecutedFill(d: DeskState, sig: Signal, market: Quote)
    requires Decide(d, sig, market).Executed?
    ensures var f := Decide(d, sig, market).fill;
      && f.orderId == d.nextId && f.symbol == sig.symbol && f.side == sig.side
      && f.qty == sig.targetQty && f.qty > 0.0
      && f.price == market.Touch(sig.side) && f.price > 0.0
  {
  }

  lemma SubmitKeepsOrderBook(d: DeskState, sig: Signal, market: Quote)
    requires OrderBook(d)
    ensures OrderBook(Submit(d, sig, market))
    ensures forall id | id in d.orders ::
      id in Submit(d, sig, market).orders && Submit(d, sig, market).orders[id] == d.orders[id]
  {
    hide AccountAfter;
    hide Verdict;
  }

  lemma NewOrderShows(d: DeskState, sig: Signal, market: Quote)
    requires Decide(d, sig, market) != Ignored
    ensures var outcome := Decide(d, sig, market);
      var o := Settled(NewOrder(d.nextId, sig), outcome);
      if outcome.Executed? then Shows(o, outcome.fill.qty, outcome.fill.qty * outcome.fill.price)
      else Shows(o, 0.0, 0.0)
  {
  }

  lemma JournalGrows(d: DeskState, d': DeskState, f: Fill, o: Order, capital: real)
    requires Journalled(d, capital) && d.nextId !in d.orders
    requires f.qty > 0.0 && f.orderId == d.nextId == d'.nextId - 1 >= 1
    requires d'.account == AccountAfter(d.account, f) && d'.fills == d.fills + [f]
    requires d'.orders == d.orders[d.nextId := o] && Shows(o, f.qty, f.qty * f.price)
    ensures Journalled(d', capital)
  {
    hide AccountAfter;
    hide Shows;
    assert d'.fills[..|d.fills|] == d.fills;
    ReplayAppend(Funded(capital), d.fills, f);
    UnusedIdHasNoFills(d.fills, d.nextId);
    forall id | id in d'.orders
      ensures Shows(d'.orders[id], FilledQty(d'.fills, id), FilledNotional(d'.fills, id))
    {
      if id == d.nextId {
        assert FilledQty(d'.fills, id) == f.qty;
        assert FilledNotional(d'.fills, id) == f.qty * f.price;
      } else {
        assert FilledQty(d'.fills, id) == FilledQty(d.fills, id);
        assert FilledNotional(d'.fills, id) == FilledNotional(d.fills, id);
      }
    }
  }

  lemma SubmitKeepsJournal(d: DeskState, sig: Signal, market: Quote, capital: real)
    requires OrderBook(d) && Journalled(d, capital)
    ensures Journalled(Submit(d, sig, market), capital)
  {
    hide AccountAfter;
    hide Decide;
    hide Settled;
    var outcome := Decide(d, sig, market);
    if outcome != Ignored {
      NewOrderShows(d, sig, market);
      UnusedIdHasNoFills(d.fills, d.nextId);
      if outcome.Executed? {
        ExecutedFill(d, sig, market);
        JournalGrows(d, Submit(d, sig, market), outcome.fill, Settled(NewOrder(d.nextId, sig), outcome), capital);
      }
    }
  }

  lemma StepKeepsDesk(d: DeskState, a: Action, capital: real)
    requires OrderBook(d) && Journalled(d, capital)
    ensures OrderBook(Step(d, a)) && Journalled(Step(d, a), capital)
    ensures Step(d, a).risk.limits == d.risk.limits
    ensures forall id | id in d.orders :: id in Step(d, a).orders && Step(d, a).orders[id] == d.orders[id]
  {
    StepIsSubmitOrKill(d, a);
    hide Step;
    hide Submit;
    match SignalOf(d, a)
    case Some(sig) =>
      SubmitKeepsOrderBook(d, sig, a.market);
      SubmitKeepsJournal(d, sig, a.market, capital);
    case None =>
  }

  /** In every run from a freshly opened desk the life cycle and the journal hold. */
  lemma {:induction false} RunsAreJournalled(capital: real, limits: RiskLimits, actions: seq<Action>)
    ensures OrderBook(Run(Opened(capital, limits), actions))
    ensures Journalled(Run(Opened(capital, limits), actions), capital)
    ensures Run(Opened(capital, limits), actions).risk.limits == limits
  {
    hide Step;
    if actions != [] {
      RunsAreJournalled(capital, limits, actions[..|actions| - 1]);
      StepKeepsDesk(Run(Opened(capital, limits), actions[..|actions| - 1]), actions[|actions| - 1], capital);
    }
  }

  lemma RunAppend(d: DeskState, earlier: seq<Action>, a: Action)
    ensures Run(d, earlier + [a]) == Step(Run(d, earlier), a)
  {
    assert (earlier + [a])[..|earlier|] == earlier;
  }

  /** An order never changes again once the submit that created it has returned. */
  lemma {:induction false} SettledOrdersNeverChange(capital: real, limits: RiskLimits,
                                                    earlier: seq<Action>, later: seq<Action>, id: nat)
    requires id in Run(Opened(capital, limits), earlier).orders
    ensures id in Run(Opened(capital, limits), earlier + later).orders
    ensures Run(Opened(capital, limits), earlier + later).orders[id]
         == Run(Opened(capital, limits), earlier).orders[id]
  {
    hide Step;
    if later == [] {
      assert earlier + later == earlier;
    } else {
      var shorter := later[..|later| - 1];
      var d, a := Run(Opened(capital, limits), earlier + shorter), later[|later| - 1];
      SettledOrdersNeverChange(capital, limits, earlier, shorter, id);
      RunsAreJournalled(capital, limits, earlier + shorter);
      assert earlier + later == earlier + shorter + [a];
      RunAppend(Opened(capital, limits), earlier + shorter, a);
      StepKeepsDesk(d, a, capital);
    }
  }
}
