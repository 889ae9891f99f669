/** The paper matching engine: an order fills in full at the touch, or not at all. */
module Matching {
  import opened Types

  predicate Marketable(o: Order, market: Quote) {
    o.orderType == Limit ==> if o.side == Buy then o.limitPrice >= market.ask else o.limitPrice <= market.bid
  }

  predicate Trades(o: Order, market: Quote) {
    o.Leaves() > 0.0 && market.Touch(o.side) > 0.0 && Marketable(o, market)
  }

  function Execution(o: Order, market: Quote, seqNo: int): Fill {
    Fill(o.id, o.symbol, o.side, o.Leaves(), market.Touch(o.side), market.ts + seqNo + 1)
  }

  class PaperMatchingEngine {
    var seqNo: int

    constructor ()
      ensures seqNo == 0
    {
      seqNo := 0;
    }

    method Match(o: Order, market: Quote) returns (fills: seq<Fill>)
      modifies this
      ensures fills == if Trades(o, market) then [Execution(o, market, old(seqNo))] else []
      ensures seqNo == old(seqNo) + |fills|
    {
      fills := [];
      var qty := o.Leaves();
      if !(qty > 0.0) {
        return;
      }
      var touch := market.Touch(o.side);
      if !(touch > 0.0) {
        return;
      }
      if o.orderType == Limit {
        var marketable := if o.side == Buy then o.limitPrice >= market.ask else o.limitPrice <= market.bid;
        if !marketable {
          return;
        }
      }
      seqNo := seqNo + 1;
      fills := fills + [Fill(o.id, o.symbol, o.side, qty, touch, market.ts + seqNo)];
    }
  }
}
