/** The order manager: creates orders, runs the two gates, routes and books fills in place. */
module Oms {
  import opened Types
  import opened Accounting
  import opened Journal
  import opened PortfolioBook
  import opened Risk
  import opened Matching
  import Desk

  class OrderManager {
    const risk: RiskManager
    const matcher: PaperMatchingEngine
    const portfolio: Portfolio
    var nextId: nat
    var orders: map<nat, Order>
    var fills: Fills
    var faults: seq<Desk.Fault>

    ghost function Repr(): set<object>
      reads portfolio`positions
    {
      {this, risk, matcher} + portfolio.Repr()
    }

    ghost predicate Valid()
      reads portfolio`positions
    {
      portfolio.Valid()
    }

    ghost function State(): Desk.DeskState
      reads this, risk, matcher, portfolio, portfolio.Objects()
    {
      Desk.DeskState(portfolio.State(), risk.State(), matcher.seqNo, nextId, orders, fills, faults)
    }

    constructor (risk: RiskManager, matcher: PaperMatchingEngine, portfolio: Portfolio)
      requires portfolio.Valid()
      ensures this.risk == risk && this.matcher == matcher && this.portfolio == portfolio
      ensures Valid()
      ensures State() == Desk.DeskState(portfolio.State(), risk.State(), matcher.seqNo, 1, map[], [], [])
    {
      this.risk, this.matcher, this.portfolio := risk, matcher, portfolio;
      nextId, orders, fills, faults := 1, map[], [], [];
    }

    /** Moves the order on if that is legal; otherwise reports and leaves it as it was. */
    method Transition(o: Order, to: OrderStatus) returns (moved: Order)
      modifies this`faults
      ensures Desk.Legal(o.status, to) ==> moved == o.(status := to) && faults == old(faults)
      ensures !Desk.Legal(o.status, to) ==>
        moved == o && faults == old(faults) + [Desk.IllegalTransition(o.id, o.status, to)]
    {
      if !Desk.Legal(o.status, to) {
        faults := faults + [Desk.IllegalTransition(o.id, o.status, to)];
        return o;
      }
      moved := o.(status := to);
    }

    /** Books one fill: the order's totals and status, then the portfolio, then the journal. */
    method OnFill(f: Fill)
      requires Valid() && f.qty > 0.0
      modifies Repr()
      ensures Valid() && fresh(Repr() - old(Repr()))
      ensures State() == Desk.AfterFill(old(State()), f)
    {
      hide AccountAfter;
      hide Desk.Progressed;
      if f.orderId !in orders {
        faults := faults + [Desk.UnknownOrder(f.orderId)];
        return;
      }
      hide State;
      ProgressOrder(f);
      Book(f);
    }

    method Book(f: Fill)
      requires Valid() && f.qty > 0.0
      modifies portfolio.Repr(), this`fills
      ensures Valid() && fresh(Repr() - old(Repr()))
      ensures State() == old(State()).(account := AccountAfter(old(State()).account, f),
                                       fills := old(State()).fills + [f])
    {
      hide AccountAfter;
      portfolio.Apply(f);
      fills := fills + [f];
    }

    static method NewAverage(o: Order, f: Fill) returns (avg: real)
      ensures avg == Desk.BlendedPrice(o, f)
    {
      var newFilled := o.filledQty + f.qty;
      avg := o.avgFillPrice;
      if newFilled > 0.0 {
        avg := (o.avgFillPrice * o.filledQty + f.price * f.qty) / newFilled;
      }
    }

    method ProgressOrder(f: Fill)
      requires Valid() && f.orderId in orders
      modifies this`orders, this`faults
      ensures Valid()
      ensures State() == Desk.Progressed(old(State()), f)
    {
      hide Desk.BlendedPrice;
      var o := orders[f.orderId];
      var avg := NewAverage(o, f);
      o := o.(filledQty := o.filledQty + f.qty, avgFillPrice := avg);
      o := Transition(o, if o.Leaves() <= EPSILON then Filled else PartiallyFilled);
      orders := orders[f.orderId := o];
    }

    /** Turns a signal into an order and runs it to its settled state; the id, or None if degenerate. */
    method Submit(sig: Signal, market: Quote) returns (id: Option<nat>)
      requires Valid()
      modifies Repr()
      ensures Valid() && fresh(Repr() - old(Repr()))
      ensures State() == Desk.Submit(old(State()), sig, market)
      ensures id == if Desk.Decide(old(State()), sig, market) == Desk.Ignored then None else Some(old(nextId))
    {
      hide AccountAfter;
      hide Verdict;
      hide Desk.Submit;
      hide Desk.BusinessReject;
      hide Routed;
      hide Trades;
      hide Execution;
      hide State;
      ghost var before := State();
      if !(sig.targetQty > 0.0) || sig.symbol == "" {
        SubmitIgnored(before, sig, market);
        return None;
      }
      var o := Create(sig);
      var bizReject := BusinessGate(o, market);
      if bizReject != "" {
        SubmitRefused(before, sig, market, bizReject);
        Reject(o, bizReject);
        return Some(o.id);
      }

      var decision := RiskGate(o, market);
      if decision.Denied? {
        SubmitRefused(before, sig, market, decision.reason);
        Reject(o, decision.reason);
        return Some(o.id);
      }

      SubmitRouted(before, sig, market);
      Route(o, market);
      return Some(o.id);
    }

    /** A new order with the next id. */
    method Create(sig: Signal) returns (o: Order)
      requires Valid()
      modifies this`nextId
      ensures Valid() && Repr() == old(Repr())
      ensures o == Desk.NewOrder(old(State()).nextId, sig) && old(State()).nextId == old(nextId)
      ensures State() == old(State()).(nextId := old(nextId) + 1)
    {
      o := Desk.NewOrder(nextId, sig);
      nextId := nextId + 1;
    }

    method RiskGate(o: Order, market: Quote) returns (decision: RiskDecision)
      requires Valid()
      ensures decision == Verdict(State().risk, o, State().account.NetQty(o.symbol), market)
      ensures State() == old(State())
    {
      hide Verdict;
      var net := portfolio.NetQty(o.symbol);
      decision := risk.Check(o, net, market);
    }

    method BusinessGate(o: Order, market: Quote) returns (reject: string)
      requires Valid()
      ensures reject == Desk.BusinessReject(State().account, o, market)
      ensures State() == old(State())
    {
      var ref := Desk.ReferencePrice(o, market);
      reject := "";
      if o.side == Buy {
        if portfolio.cash < o.qty * ref {
          reject := "insufficient buying power";
        }
      } else {
        if portfolio.NetQty(o.symbol) < o.qty - EPSILON {
          reject := "insufficient position (no shorting)";
        }
      }
    }

    method Reject(o: Order, reason: string)
      requires Valid() && o.status == New
      modifies this`orders, this`faults
      ensures Valid()
      ensures State() == old(State()).(orders := old(State()).orders[o.id := o.(status := Rejected,
                                                                                rejectReason := reason)])
    {
      var rejected := Transition(o.(rejectReason := reason), Rejected);
      orders := orders[o.id := rejected];
    }

    /** Sends an admitted order to the matching engine and books whatever comes back. */
    method Route(o: Order, market: Quote)
      requires Valid() && o.status == New && o.filledQty == 0.0 && o.qty > 0.0
      modifies Repr()
      ensures Valid() && fresh(Repr() - old(Repr()))
      ensures State() == Routed(old(State()), o, market)
    {
      hide AccountAfter;
      hide Desk.AfterFill;
      hide Routed;
      hide Trades;
      hide Execution;
      hide State;
      ghost var before := State();
      var sent, executions := SendToVenue(o, market);
      ghost var routed := State();
      RoutedInSteps(before, o, sent, market, routed);
      for i := 0 to |executions|
        invariant Valid() && fresh(Repr() - old(Repr()))
        invariant State() == if i == 0 then routed else Desk.AfterFill(routed, executions[0])
      {
        OnFill(executions[i]);
      }
    }

    method SendToVenue(o: Order, market: Quote) returns (sent: Order, executions: seq<Fill>)
      requires Valid() && o.status == New
      modifies this`orders, this`faults, matcher
      ensures Valid() && Repr() == old(Repr()) && sent == o.(status := Sent)
      ensures executions == if Trades(sent, market) then [Execution(sent, market, old(State()).seqNo)] else []
      ensures State() == old(State()).(orders := old(State()).orders[o.id := sent],
                                       seqNo := old(State()).seqNo + |executions|)
    {
      hide Trades;
      hide Execution;
      sent := Transition(o, Sent);
      orders := orders[o.id := sent];
      executions := matcher.Match(sent, market);
    }

    static ghost function Routed(d: Desk.DeskState, o: Order, market: Quote): Desk.DeskState
      requires o.filledQty == 0.0
    {
      if Trades(o, market) then
        var f := Execution(o, market, d.seqNo);
        d.(orders := d.orders[o.id := Desk.Settled(o, Desk.Executed(f))],
           account := AccountAfter(d.account, f), seqNo := d.seqNo + 1, fills := d.fills + [f])
      else d.(orders := d.orders[o.id := Desk.Settled(o, Desk.Resting)])
    }

    static lemma SubmitIgnored(d: Desk.DeskState, sig: Signal, market: Quote)
      requires sig.targetQty <= 0.0 || sig.symbol == ""
      ensures Desk.Submit(d, sig, market) == d
    {
    }

    static lemma SubmitRefused(d: Desk.DeskState, sig: Signal, market: Quote, reason: string)
      requires Desk.Decide(d, sig, market) == Desk.Refused(reason)
      ensures Desk.Submit(d, sig, market) ==
        d.(nextId := d.nextId + 1,
           orders := d.orders[d.nextId := Desk.NewOrder(d.nextId, sig).(status := Rejected, rejectReason := reason)])
    {
    }

    static lemma SubmitRouted(d: Desk.DeskState, sig: Signal, market: Quote)
      requires Desk.Decide(d, sig, market).Resting? || Desk.Decide(d, sig, market).Executed?
      ensures Desk.Submit(d, sig, market) ==
        Routed(d.(nextId := d.nextId + 1), Desk.NewOrder(d.nextId, sig), market)
    {
      hide AccountAfter;
    }

    /** The one fill of a sent order is a legal transition that fills it in full at its price. */
    static lemma RoutedInSteps(d: Desk.DeskState, o: Order, sent: Order, market: Quote, routed: Desk.DeskState)
      requires o.status == New && o.filledQty == 0.0 && o.qty > 0.0 && sent == o.(status := Sent)
      requires routed == d.(orders := d.orders[o.id := sent],
                            seqNo := if Trades(sent, market) then d.seqNo + 1 else d.seqNo)
      ensures Trades(sent, market) ==> Execution(sent, market, d.seqNo).qty > 0.0
      ensures Routed(d, o, market)
           == if Trades(sent, market) then Desk.AfterFill(routed, Execution(sent, market, d.seqNo)) else routed
    {
      hide AccountAfter;
      assert Trades(sent, market) == Trades(o, market);
      if Trades(o, market) {
        var f := Execution(sent, market, d.seqNo);
        assert f.qty == o.qty && f.orderId == o.id;
        assert f.price * f.qty / f.qty == f.price;
        assert Desk.BlendedPrice(sent, f) == f.price;
        assert f.orderId in routed.orders && routed.orders[f.orderId] == sent;
        hide Desk.BlendedPrice;
        hide Trades;
        hide Execution;
      }
    }

    /** A market sell of the whole long position; nothing when there is none. */
    method Flatten(symbol: string, market: Quote) returns (id: Option<nat>)
      requires Valid()
      modifies Repr()
      ensures Valid() && fresh(Repr() - old(Repr()))
      ensures State() == Desk.Flatten(old(State()), symbol, market)
      ensures var net := old(State()).account.NetQty(symbol);
        var ignored := Desk.Decide(old(State()), Desk.FlattenSignal(symbol, net, market), market) == Desk.Ignored;
        id == if net <= EPSILON || ignored then None else Some(old(nextId))
    {
      hide Desk.Decide;
      hide Desk.Submit;
      var net := portfolio.NetQty(symbol);
      if net <= EPSILON {
        return None;
      }
      id := Submit(Desk.FlattenSignal(symbol, net, market), market);
    }
  }
}
