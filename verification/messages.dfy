/** The decoded messages of the feed link and what each does to the terminal's store. */
module Messages {
  import opened Types
  import opened Store

  datatype TradeRow = TradeRow(symbol: string, price: real, ts: int)

  datatype Message = Quotes(rows: seq<Quote>)
                   | Trades(prints: seq<TradeRow>)
                   | HistoryOf(symbol: string, points: Tape)
                   | Products(ids: seq<string>)
                   | Universe(ids: seq<string>)
                   | Names(names: map<string, string>)
                   | PollRequests

  function OnQuotes(st: StoreState, rows: seq<Quote>): StoreState {
    if rows == [] then st else OnQuote(OnQuotes(st, rows[..|rows| - 1]), rows[|rows| - 1])
  }

  function OnTrades(st: StoreState, rows: seq<TradeRow>, cap: nat): StoreState {
    if rows == [] then st
    else
      var r := rows[|rows| - 1];
      OnTrade(OnTrades(st, rows[..|rows| - 1], cap), r.symbol, PricePoint(r.ts, r.price), cap)
  }

  function Handled(st: StoreState, m: Message, cap: nat): StoreState {
    match m
    case Quotes(rows) => OnQuotes(st, rows)
    case Trades(rows) => OnTrades(st, rows, cap)
    case HistoryOf(symbol, points) => OnBackfill(st, symbol, points, cap)
    case Products(ids) => st.(products := ids)
    case Universe(ids) => st.(universe := ids)
    case Names(names) => st.(names := names)
    case PollRequests => st.(requested := [], historyRequests := [])
  }

  /** The part of the store that the feed alone writes and its resync restores. */
  datatype Mirror = Mirror(lastQuote: map<string, Quote>, products: seq<string>,
                           universe: seq<string>, names: map<string, string>)

  function MirrorOf(st: StoreState): Mirror {
    Mirror(st.lastQuote, st.products, st.universe, st.names)
  }

  function QuotesShown(shown: map<string, Quote>, rows: seq<Quote>): map<string, Quote> {
    if rows == [] then shown
    else
      var q := rows[|rows| - 1];
      var earlier := QuotesShown(shown, rows[..|rows| - 1]);
      if q.symbol == "" then earlier else earlier[q.symbol := q]
  }

  function Shown(v: Mirror, m: Message): Mirror {
    match m
    case Quotes(rows) => v.(lastQuote := QuotesShown(v.lastQuote, rows))
    case Products(ids) => v.(products := ids)
    case Universe(ids) => v.(universe := ids)
    case Names(names) => v.(names := names)
    case _ => v
  }

  lemma {:induction false} QuotesMirror(st: StoreState, rows: seq<Quote>)
    ensures MirrorOf(OnQuotes(st, rows)) == MirrorOf(st).(lastQuote := QuotesShown(st.lastQuote, rows))
  {
    if rows != [] {
      QuotesMirror(st, rows[..|rows| - 1]);
    }
  }

  lemma {:induction false} TradesMirror(st: StoreState, rows: seq<TradeRow>, cap: nat)
    ensures MirrorOf(OnTrades(st, rows, cap)) == MirrorOf(st)
  {
    if rows != [] {
      TradesMirror(st, rows[..|rows| - 1], cap);
    }
  }

  /** The mirror evolves by itself: tapes and request queues never feed back into it. */
  lemma HandledMirror(st: StoreState, m: Message, cap: nat)
    ensures MirrorOf(Handled(st, m, cap)) == Shown(MirrorOf(st), m)
  {
    match m
    case Quotes(rows) => QuotesMirror(st, rows);
    case Trades(rows) => TradesMirror(st, rows, cap);
    case _ =>
  }

  function HandledAll(st: StoreState, messages: seq<Message>, cap: nat): StoreState {
    if messages == [] then st
    else Handled(HandledAll(st, messages[..|messages| - 1], cap), messages[|messages| - 1], cap)
  }

  function ShownAll(v: Mirror, messages: seq<Message>): Mirror {
    if messages == [] then v
    else Shown(ShownAll(v, messages[..|messages| - 1]), messages[|messages| - 1])
  }

  lemma {:induction false} HandledAllMirror(st: StoreState, messages: seq<Message>, cap: nat)
    ensures MirrorOf(HandledAll(st, messages, cap)) == ShownAll(MirrorOf(st), messages)
  {
    if messages != [] {
      HandledAllMirror(st, messages[..|messages| - 1], cap);
      HandledMirror(HandledAll(st, messages[..|messages| - 1], cap), messages[|messages| - 1], cap);
    }
  }
}
