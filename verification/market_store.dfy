/** The store both feed and engine call, each call under its one mutex and so atomic. */
module MarketStores {
  import opened Types
  import opened Store

  class MarketStore {
    const historyCap: nat
    var lastQuote: LastQuotes
    var tapes: map<string, Tape>
    var products: seq<string>
    var universe: seq<string>
    var names: map<string, string>
    var requested: seq<string>
    var historyRequests: seq<string>

    function State(): StoreState
      reads this
    {
      StoreState(lastQuote, tapes, products, universe, names, requested, historyRequests)
    }

    constructor (historyCap: nat)
      ensures this.historyCap == historyCap && State() == EMPTY
    {
      this.historyCap := historyCap;
      lastQuote, tapes, names := map[], map[], map[];
      products, universe, requested, historyRequests := [], [], [], [];
    }

    method OnQuoteUpdate(q: Quote)
      modifies this
      ensures State() == OnQuote(old(State()), q)
    {
      if q.symbol == "" {
        return;
      }
      lastQuote := lastQuote[q.symbol := q];
    }

    method OnTradePrint(symbol: string, price: real, ts: int)
      modifies this
      ensures State() == OnTrade(old(State()), symbol, PricePoint(ts, price), historyCap)
    {
      if symbol == "" || !(price > 0.0) {
        return;
      }
      var h := if symbol in tapes then tapes[symbol] else [];
      h := h + [PricePoint(ts, price)];
      h := TrimFront(h, historyCap);
      tapes := tapes[symbol := h];
    }

    /** Seeds a chart with the points that predate the tape already held. */
    method BackfillHistory(symbol: string, points: Tape)
      modifies this
      ensures State() == OnBackfill(old(State()), symbol, points, historyCap)
    {
      if symbol == "" || points == [] {
        return;
      }
      var h := if symbol in tapes then tapes[symbol] else [];
      var oldest := if h == [] then MAX_TIMESTAMP else h[0].ts;
      var older := [];
      for i := 0 to |points|
        invariant older == Accepted(points[..i], oldest)
      {
        assert points[..i + 1][..i] == points[..i];
        if points[i].price > 0.0 && points[i].ts > 0 && points[i].ts < oldest {
          older := older + [points[i]];
        }
      }
      assert points[..|points|] == points;
      h := older + h;
      h := TrimFront(h, historyCap);
      tapes := tapes[symbol := h];
    }

    method SetProducts(products: seq<string>)
      modifies this
      ensures State() == old(State()).(products := products)
    {
      this.products := products;
    }

    method SetUniverse(universe: seq<string>)
      modifies this
      ensures State() == old(State()).(universe := universe)
    {
      this.universe := universe;
    }

    method SetNames(names: map<string, string>)
      modifies this
      ensures State() == old(State()).(names := names)
    {
      this.names := names;
    }

    method AddSymbol(symbol: string)
      modifies this
      ensures State() == old(State()).(requested := Enqueued(old(requested), symbol))
    {
      if symbol == "" {
        return;
      }
      if symbol !in requested {
        requested := requested + [symbol];
      }
    }

    method RequestHistory(symbol: string)
      modifies this
      ensures State() == old(State()).(historyRequests := Enqueued(old(historyRequests), symbol))
    {
      if symbol == "" {
        return;
      }
      if symbol !in historyRequests {
        historyRequests := historyRequests + [symbol];
      }
    }

    /** Hands out what the terminal asked to stream, and forgets it. */
    method TakeRequested() returns (batch: seq<string>)
      modifies this
      ensures batch == old(requested) && State() == old(State()).(requested := [])
    {
      batch, requested := requested, [];
    }

    method TakeHistoryRequests() returns (batch: seq<string>)
      modifies this
      ensures batch == old(historyRequests) && State() == old(State()).(historyRequests := [])
    {
      batch, historyRequests := historyRequests, [];
    }

    method TakeSnapshot(symbols: seq<string>) returns (quotes: seq<Quote>)
      ensures quotes == Snapshot(State(), symbols)
    {
      quotes := [];
      for i := 0 to |symbols|
        invariant quotes == Snapshot(State(), symbols[..i])
      {
        assert symbols[..i + 1][..i] == symbols[..i];
        if symbols[i] in lastQuote {
          quotes := quotes + [lastQuote[symbols[i]]];
        }
      }
      assert symbols[..|symbols|] == symbols;
    }

    method ReadHistory(symbol: string, n: int) returns (points: Tape)
      ensures points == History(State(), symbol, n)
    {
      if symbol !in tapes || n <= 0 {
        return [];
      }
      var h := tapes[symbol];
      var take := if n <= |h| then n else |h|;
      points := h[|h| - take..];
    }
  }
}
