/** How messages reach the tapes: each trade row and each history message, in the order received. */
module TapeLaws {
  import opened Types
  import opened Store
  import opened Messages

  /** The tape events a message carries. */
  function TapeEventsOf(m: Message): seq<TapeEvent> {
    match m
    case Trades(rows) =>
      seq(|rows|, i requires 0 <= i < |rows| => TradeEvent(rows[i].symbol, PricePoint(rows[i].ts, rows[i].price)))
    case HistoryOf(symbol, points) => [BackfillEvent(symbol, points)]
    case _ => []
  }

  function TapeEventsIn(messages: seq<Message>): seq<TapeEvent> {
    if messages == [] then []
    else TapeEventsIn(messages[..|messages| - 1]) + TapeEventsOf(messages[|messages| - 1])
  }

  /** Every tape is the newest part of the one that these events alone would have built. */
  ghost predicate Follows(st: StoreState, events: seq<TapeEvent>, cap: nat) {
    forall s: string :: st.TapeOf(s) == LastN(cap, ReferenceTape(events, s))
  }

  lemma EventFollows(st: StoreState, events: seq<TapeEvent>, e: TapeEvent, cap: nat)
    requires Follows(st, events, cap)
    ensures Follows(Recorded(st, e, cap), events + [e], cap)
  {
    hide LastN;
    hide Recorded;
    hide Extended;
    forall s: string
      ensures Recorded(st, e, cap).TapeOf(s) == LastN(cap, ReferenceTape(events + [e], s))
    {
      StepRefines(st, e, cap, s, ReferenceTape(events, s));
      assert (events + [e])[..|events|] == events;
    }
  }

  lemma {:induction false} QuotesLeaveTapes(st: StoreState, rows: seq<Quote>)
    ensures OnQuotes(st, rows).tapes == st.tapes
  {
    if rows != [] {
      QuotesLeaveTapes(st, rows[..|rows| - 1]);
    }
  }

  lemma {:induction false} TradesFollow(st: StoreState, rows: seq<TradeRow>, events: seq<TapeEvent>, cap: nat)
    requires Follows(st, events, cap)
    ensures Follows(OnTrades(st, rows, cap), events + TapeEventsOf(Trades(rows)), cap)
  {
    hide Follows;
    if rows == [] {
      assert events + TapeEventsOf(Trades(rows)) == events;
    } else {
      var earlier, r := rows[..|rows| - 1], rows[|rows| - 1];
      var e := TradeEvent(r.symbol, PricePoint(r.ts, r.price));
      TradesFollow(st, earlier, events, cap);
      EventFollows(OnTrades(st, earlier, cap), events + TapeEventsOf(Trades(earlier)), e, cap);
      assert events + TapeEventsOf(Trades(rows)) == events + TapeEventsOf(Trades(earlier)) + [e];
    }
  }

  /** A message moves the tapes by the events it carries. */
  lemma MessageFollows(st: StoreState, m: Message, events: seq<TapeEvent>, cap: nat)
    requires Follows(st, events, cap)
    ensures Follows(Handled(st, m, cap), events + TapeEventsOf(m), cap)
  {
    assert events + [] == events;
    match m
    case Trades(rows) => TradesFollow(st, rows, events, cap);
    case HistoryOf(symbol, points) => EventFollows(st, events, BackfillEvent(symbol, points), cap);
    case Quotes(rows) =>
      QuotesLeaveTapes(st, rows);
      assert forall s: string :: OnQuotes(st, rows).TapeOf(s) == st.TapeOf(s);
    case _ =>
      assert forall s: string :: Handled(st, m, cap).TapeOf(s) == st.TapeOf(s);
  }

  /** So do messages in a row, on top of whatever built the tapes before. */
  lemma {:induction false} MessagesFollow(st: StoreState, messages: seq<Message>, events: seq<TapeEvent>, cap: nat)
    requires Follows(st, events, cap)
    ensures Follows(HandledAll(st, messages, cap), events + TapeEventsIn(messages), cap)
  {
    hide Follows;
    hide Handled;
    hide TapeEventsOf;
    if messages == [] {
      assert events + TapeEventsIn(messages) == events;
    } else {
      var earlier, m := messages[..|messages| - 1], messages[|messages| - 1];
      MessagesFollow(st, earlier, events, cap);
      MessageFollows(HandledAll(st, earlier, cap), m, events + TapeEventsIn(earlier), cap);
      assert events + TapeEventsIn(messages) == events + TapeEventsIn(earlier) + TapeEventsOf(m);
    }
  }

  lemma EmptyFollows(cap: nat)
    ensures Follows(EMPTY, [], cap)
  {
  }

  /** From an empty store each tape is the newest part of what the messages' trades and backfills build. */
  lemma MessagesBuildTapes(messages: seq<Message>, cap: nat, s: string)
    ensures HandledAll(EMPTY, messages, cap).TapeOf(s) == LastN(cap, ReferenceTape(TapeEventsIn(messages), s))
  {
    EmptyFollows(cap);
    MessagesFollow(EMPTY, messages, [], cap);
    assert [] + TapeEventsIn(messages) == TapeEventsIn(messages);
    hide LastN;
    hide HandledAll;
  }

  /** One printed trade is on its tape. */
  lemma FirstTradeIsOnTheTape(symbol: string, price: real, ts: int, cap: nat)
    requires symbol != "" && price > 0.0 && cap > 0
    ensures HandledAll(EMPTY, [Trades([TradeRow(symbol, price, ts)])], cap).TapeOf(symbol) == [PricePoint(ts, price)]
  {
    var m := Trades([TradeRow(symbol, price, ts)]);
    var e := TradeEvent(symbol, PricePoint(ts, price));
    MessagesBuildTapes([m], cap, symbol);
    hide HandledAll;
    assert [m][..0] == [];
    assert TapeEventsIn([m]) == [] + [e];
    assert [e][..0] == [];
    assert ReferenceTape([e], symbol) == [PricePoint(ts, price)];
  }
}
