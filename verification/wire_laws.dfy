/** What the ticks a handler emits become on the wire, as long as one connection holds. */
module WireLaws {
  import opened Types
  import opened Sequences
  import opened Messages
  import opened FeedLink
  import opened FeedHandlers
  import FeedSync

  /** The trade rows and the quote rows of a stream of messages, in order. */
  function TradesOn(messages: seq<Message>): seq<TradeRow> {
    if messages == [] then []
    else
      var m := messages[|messages| - 1];
      TradesOn(messages[..|messages| - 1]) + if m.Trades? then m.prints else []
  }

  function QuotesOn(messages: seq<Message>): seq<Quote> {
    if messages == [] then []
    else
      var m := messages[|messages| - 1];
      QuotesOn(messages[..|messages| - 1]) + if m.Quotes? then m.rows else []
  }

  lemma RowsAppend(messages: seq<Message>, m: Message)
    ensures TradesOn(messages + [m]) == TradesOn(messages) + (if m.Trades? then m.prints else [])
    ensures QuotesOn(messages + [m]) == QuotesOn(messages) + (if m.Quotes? then m.rows else [])
  {
    assert (messages + [m])[..|messages|] == messages;
  }

  function TradesBy(op: Op): seq<TradeRow> {
    if op.PublishTrades? then op.trades else []
  }

  function QuotesBy(op: Op): seq<Quote> {
    if op.PublishQuotes? then op.rows else []
  }

  /** An operation that keeps its connection has written its message there, if it has one, and nothing else. */
  lemma KeptOperationWrites(l: Link, op: Op, now: int)
    requires Ordered(l.cache)
    ensures var l' := Performed(l, op, now).0;
      l.sock.Some? && l'.sock == l.sock ==>
        l'.wire.sent == if MessageOf(op).Some? then l.wire.sent + [MessageOf(op).value] else l.wire.sent
  {
    hide Ordered;
    CacheStaysOrdered(l.cache, op);
    if l.sock.Some? {
      AttachedStays(l.(cache := CacheAfter(l.cache, op)), now);
    }
    hide Connected;
  }

  /** While the first connection holds, it carries these trades and quotes beyond what it carried first. */
  ghost predicate Carries(start: Link, l: Link, trades: seq<TradeRow>, quotes: seq<Quote>) {
    && Synced(l)
    && start.wire.connections <= l.wire.connections
    && (l.sock.Some? && l.sock != start.sock ==> l.sock.value > start.wire.connections)
    && (l.sock == start.sock ==>
          && TradesOn(l.wire.sent) == TradesOn(start.wire.sent) + trades
          && QuotesOn(l.wire.sent) == QuotesOn(start.wire.sent) + quotes)
  }

  lemma OperationCarries(start: Link, l: Link, op: Op, now: int, trades: seq<TradeRow>, quotes: seq<Quote>)
    requires Synced(start) && start.sock.Some? && Carries(start, l, trades, quotes)
    ensures Carries(start, Performed(l, op, now).0, trades + TradesBy(op), quotes + QuotesBy(op))
  {
    hide Covers;
    hide Performed;
    hide TradesOn;
    hide QuotesOn;
    hide Ordered;
    OperationsKeepSynced(l, op, now);
    FeedSync.OperationsExtendTheConnection(l, op, now);
    KeptOperationWrites(l, op, now);
    var l' := Performed(l, op, now).0;
    if l'.sock == start.sock {
      assert l.sock == start.sock;
      if MessageOf(op).Some? {
        RowsAppend(l.wire.sent, MessageOf(op).value);
      }
      MoreRows(TradesOn(start.wire.sent), trades, TradesBy(op));
      MoreRows(QuotesOn(start.wire.sent), quotes, QuotesBy(op));
    }
  }

  lemma MoreRows<T>(first: seq<T>, rows: seq<T>, more: seq<T>)
    ensures first + rows + more == first + (rows + more) && rows + [] == rows
    ensures first + (rows + []) == first + rows
  {
    assert rows + [] == rows;
  }

  lemma FlushCarries(start: Link, f: Feed, at: Clock)
    requires Synced(start) && start.sock.Some?
    requires Carries(start, f.link, Concat(f.buffers.tradeBatches), Concat(f.buffers.quoteBatches))
    ensures var f' := FlushedFeed(f, at);
      Carries(start, f'.link, Concat(f'.buffers.tradeBatches), Concat(f'.buffers.quoteBatches))
  {
    hide Concat;
    hide Carries;
    hide Performed;
    hide Ordered;
    var b := f.buffers;
    CarriesOrdered(start, f.link, Concat(b.tradeBatches), Concat(b.quoteBatches));
    var op := PublishTrades(b.trades);
    var (l, o) := Performed(f.link, op, at.trades);
    ConcatAppend(b.tradeBatches, b.trades);
    ConcatAppend(b.quoteBatches, b.quotes);
    OperationCarries(start, f.link, op, at.trades, Concat(b.tradeBatches), Concat(b.quoteBatches));
    assert Concat(b.tradeBatches) + [] == Concat(b.tradeBatches);
    assert Concat(b.quoteBatches) + [] == Concat(b.quoteBatches);
    if o != Raised {
      OperationCarries(start, l, PublishQuotes(b.quotes), at.quotes,
                       Concat(b.tradeBatches) + b.trades, Concat(b.quoteBatches));
      assert Concat(b.tradeBatches) + b.trades + [] == Concat(b.tradeBatches) + b.trades;
    } else if b.trades == [] {
      NothingToPublish(f.link, at.trades);
    }
  }

  lemma CarriesOrdered(start: Link, l: Link, trades: seq<TradeRow>, quotes: seq<Quote>)
    requires Carries(start, l, trades, quotes)
    ensures Ordered(l.cache)
  {
  }

  /** Only flushes publish trades and quotes, as in the program. */
  predicate LeavesRowsToTheFlush(e: FeedEvent) {
    e.Control? ==> !e.op.PublishTrades? && !e.op.PublishQuotes?
  }

  lemma NextCarries(start: Link, f: Feed, e: FeedEvent, maxBuffer: nat)
    requires Synced(start) && start.sock.Some? && LeavesRowsToTheFlush(e)
    requires Ordered(f.link.cache)
    requires Carries(start, f.link, Concat(f.buffers.tradeBatches), Concat(f.buffers.quoteBatches))
    ensures var f' := Next(f, e, maxBuffer);
      Carries(start, f'.link, Concat(f'.buffers.tradeBatches), Concat(f'.buffers.quoteBatches))
  {
    hide Concat;
    hide FlushedFeed;
    hide Performed;
    hide Ordered;
    hide TradesOn;
    hide QuotesOn;
    hide Covers;
    match e
    case Tick(_, at) => FlushCarries(start, Buffered(f, e), at);
    case TopOfBook(_, at) => FlushCarries(start, Buffered(f, e), at);
    case FlushTimer(at) => FlushCarries(start, f, at);
    case Control(op, now) =>
      OperationCarries(start, f.link, op, now, Concat(f.buffers.tradeBatches), Concat(f.buffers.quoteBatches));
      assert Concat(f.buffers.tradeBatches) + [] == Concat(f.buffers.tradeBatches);
      assert Concat(f.buffers.quoteBatches) + [] == Concat(f.buffers.quoteBatches);
    case Weather(_, _) =>
  }

  lemma {:induction false} RunCarries(start: Link, events: seq<FeedEvent>, maxBuffer: nat)
    requires Synced(start) && start.sock.Some?
    requires forall i | 0 <= i < |events| :: LeavesRowsToTheFlush(events[i])
    ensures var f := RunFeed(start, events, maxBuffer);
      Carries(start, f.link, Concat(f.buffers.tradeBatches), Concat(f.buffers.quoteBatches))
  {
    hide Next;
    hide LeavesRowsToTheFlush;
    hide Covers;
    if events == [] {
      NothingCarried(start, maxBuffer);
    } else {
      hide Carries;
      hide Synced;
      RunCarries(start, events[..|events| - 1], maxBuffer);
      NextCarries(start, RunFeed(start, events[..|events| - 1], maxBuffer), events[|events| - 1], maxBuffer);
    }
  }

  lemma NothingCarried(start: Link, maxBuffer: nat)
    requires Synced(start) && start.sock.Some?
    ensures var f := RunFeed(start, [], maxBuffer);
      Carries(start, f.link, Concat(f.buffers.tradeBatches), Concat(f.buffers.quoteBatches))
  {
    hide TradesOn;
    hide QuotesOn;
    assert TradesOn(start.wire.sent) + [] == TradesOn(start.wire.sent);
    assert QuotesOn(start.wire.sent) + [] == QuotesOn(start.wire.sent);
  }

  /**
   While the connection a run started on holds, every tick emitted is on the wire, in order, or still
   buffered, and nothing else is there.
   */
  lemma EmittedTicksAreOnTheWire(start: Link, events: seq<FeedEvent>, maxBuffer: nat)
    requires Synced(start) && start.sock.Some?
    requires forall i | 0 <= i < |events| :: LeavesRowsToTheFlush(events[i])
    requires RunFeed(start, events, maxBuffer).link.sock == start.sock
    ensures var f := RunFeed(start, events, maxBuffer);
      && TradesOn(f.link.wire.sent) + f.buffers.trades == TradesOn(start.wire.sent) + Ticks(events)
      && QuotesOn(f.link.wire.sent) + f.buffers.quotes == QuotesOn(start.wire.sent) + Book(events)
  {
    hide RunFeed;
    hide TradesOn;
    hide QuotesOn;
    hide Covers;
    hide Concat;
    hide LeavesRowsToTheFlush;
    var b := RunFeed(start, events, maxBuffer).buffers;
    RunCarries(start, events, maxBuffer);
    FeedConservesTicks(start, events, maxBuffer);
    MoreRows(TradesOn(start.wire.sent), Concat(b.tradeBatches), b.trades);
    MoreRows(QuotesOn(start.wire.sent), Concat(b.quoteBatches), b.quotes);
  }

  // ---------- when a flush happens ----------

  /** The timer empties the trade buffer, and the quote buffer exactly when it drains. */
  lemma TimerFlushes(f: Feed, at: Clock, maxBuffer: nat)
    requires Ordered(f.link.cache)
    ensures var f' := Next(f, FlushTimer(at), maxBuffer);
      && f'.buffers.trades == []
      && (f'.buffers.quotes == [] <==> DrainsQuotes(f, at))
  {
    TradesRaiseIff(f, at);
    hide LuckOf;
    hide LosesResync;
    hide LinkFlushed;
  }

  /** A tick that does not fill its buffer publishes nothing. */
  lemma BelowTheBoundNothingShips(f: Feed, e: FeedEvent, maxBuffer: nat)
    requires Ordered(f.link.cache)
    requires (e.Tick? && |f.buffers.trades| + 1 < maxBuffer) || (e.TopOfBook? && |f.buffers.quotes| + 1 < maxBuffer)
    ensures var f' := Next(f, e, maxBuffer);
      && f'.link == f.link
      && f'.buffers == f.buffers.(trades := f.buffers.trades + (if e.Tick? then [e.trade] else []),
                                  quotes := f.buffers.quotes + (if e.TopOfBook? then [e.quote] else []))
  {
    assert f.buffers.trades + [] == f.buffers.trades && f.buffers.quotes + [] == f.buffers.quotes;
    hide FlushedFeed;
  }
}
