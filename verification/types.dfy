/** The values every component of the desk exchanges: quotes, signals, orders and fills. */
module Types {

  datatype Option<+T> = None | Some(value: T)

  /** The absolute tolerance that the sell gate, the fully-filled test and flatten share. */
  const EPSILON: real := 0.000000000001

  function Abs(x: real): real {
    if x < 0.0 then -x else x
  }

  function Min(x: real, y: real): real {
    if x <= y then x else y
  }

  datatype Side = Buy | Sell

  function SignedQty(side: Side, qty: real): real {
    if side == Buy then qty else -qty
  }

  datatype OrderType = Market | Limit

  datatype OrderStatus = New | Sent | PartiallyFilled | Filled | Cancelled | Rejected

  datatype PricePoint = PricePoint(ts: int, price: real)

  /** Top of book. A side that is not quoted is recorded as zero. */
  datatype Quote = Quote(symbol: string, bid: real, ask: real, bsize: real, asize: real, ts: int) {

    function Mid(): real {
      0.5 * (bid + ask)
    }

    /** The side the order would cross, else the other side, else the mid. */
    function Touch(side: Side): real {
      var primary := if side == Buy then ask else bid;
      var secondary := if side == Buy then bid else ask;
      if primary > 0.0 then primary
      else if secondary > 0.0 then secondary
      else Mid()
    }

    predicate TwoSided() {
      0.0 < bid <= ask
    }
  }

  datatype Signal = Signal(symbol: string, side: Side, targetQty: real, orderType: OrderType,
                           limitPrice: real, strategy: string, ts: int)

  datatype Order = Order(id: nat, symbol: string, side: Side, orderType: OrderType, qty: real,
                         limitPrice: real, filledQty: real, avgFillPrice: real, status: OrderStatus,
                         strategy: string, rejectReason: string, ts: int) {

    function Leaves(): real {
      qty - filledQty
    }
  }

  datatype Fill = Fill(orderId: nat, symbol: string, side: Side, qty: real, price: real, ts: int) {

    /** What the fill does to the signed position. */
    function Signed(): real {
      SignedQty(side, qty)
    }

    /** What the fill does to cash: a buy spends, a sell receives. */
    function CashFlow(): real {
      -(Signed() * price)
    }
  }

  /** A touch is a tradable price exactly when at least one side of the book is quoted. */
  lemma TouchIsPositive(q: Quote, side: Side)
    ensures q.Touch(side) > 0.0 <==> q.bid > 0.0 || q.ask > 0.0
  {
  }

  /** On a two-sided book crossing the spread never beats the mid. */
  lemma CrossingCostsAtLeastTheMid(q: Quote)
    requires q.TwoSided()
    ensures q.Touch(Sell) <= q.Mid() <= q.Touch(Buy)
  {
  }
}
