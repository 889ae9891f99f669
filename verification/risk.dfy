/** Pre-trade limits and the kill switch. */
module Risk {
  import opened Types

  datatype RiskLimits = RiskLimits(maxOrderQty: real, maxPositionQty: real, maxOrderNotional: real)

  datatype RiskState = RiskState(limits: RiskLimits, killed: bool, killReason: string)

  datatype RiskDecision = Allowed | Denied(reason: string)

  /** The price the notional limit uses: the limit price or the side crossed, else the mid. */
  function NotionalReference(o: Order, market: Quote): real {
    var ref := if o.orderType == Limit then o.limitPrice
               else if o.side == Buy then market.ask
               else market.bid;
    if ref > 0.0 then ref else market.Mid()
  }

  predicate WithinLimits(limits: RiskLimits, o: Order, net: real, market: Quote) {
    && 0.0 < o.qty <= limits.maxOrderQty
    && o.qty * NotionalReference(o, market) <= limits.maxOrderNotional
    && Abs(net + SignedQty(o.side, o.qty)) <= limits.maxPositionQty
  }

  /** The first breached limit, in the order the checks are made. */
  function BreachReason(limits: RiskLimits, o: Order, market: Quote): string {
    if o.qty <= 0.0 then "non-positive order qty"
    else if o.qty > limits.maxOrderQty then "order qty exceeds max_order_qty"
    else if o.qty * NotionalReference(o, market) > limits.maxOrderNotional
    then "order notional exceeds max_order_notional"
    else "projected position exceeds max_position_qty"
  }

  function Verdict(r: RiskState, o: Order, net: real, market: Quote): RiskDecision {
    if r.killed then Denied("kill switch active: " + r.killReason)
    else if WithinLimits(r.limits, o, net, market) then Allowed
    else Denied(BreachReason(r.limits, o, market))
  }

  class RiskManager {
    const limits: RiskLimits
    var killed: bool
    var killReason: string

    function State(): RiskState
      reads this
    {
      RiskState(limits, killed, killReason)
    }

    constructor (limits: RiskLimits)
      ensures State() == RiskState(limits, false, "")
    {
      this.limits := limits;
      killed, killReason := false, "";
    }

    method Kill(reason: string)
      modifies this
      ensures State() == old(State()).(killed := true, killReason := reason)
    {
      killed := true;
      killReason := reason;
    }

    static method Reference(o: Order, market: Quote) returns (ref: real)
      ensures ref == NotionalReference(o, market)
    {
      ref := if o.orderType == Limit then o.limitPrice
             else if o.side == Buy then market.ask
             else market.bid;
      if !(ref > 0.0) {
        ref := market.Mid();
      }
    }

    method Check(o: Order, net: real, market: Quote) returns (decision: RiskDecision)
      ensures decision == Verdict(State(), o, net, market)
    {
      hide NotionalReference;
      if killed {
        return Denied("kill switch active: " + killReason);
      }
      if !(o.qty > 0.0) {
        return Denied("non-positive order qty");
      }
      if o.qty > limits.maxOrderQty {
        return Denied("order qty exceeds max_order_qty");
      }
      var ref := Reference(o, market);
      var notional := o.qty * ref;
      if notional > limits.maxOrderNotional {
        return Denied("order notional exceeds max_order_notional");
      }
      var projected := net + SignedQty(o.side, o.qty);
      if Abs(projected) > limits.maxPositionQty {
        return Denied("projected position exceeds max_position_qty");
      }
      return Allowed;
    }
  }
}
