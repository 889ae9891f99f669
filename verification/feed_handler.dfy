/**
 The feed handler over its publisher: ticks are buffered and shipped in batches, and whether a
 publish call raises is decided by the state of the link it meets.
 */
module FeedHandlers {
  import opened Types
  import opened Sequences
  import opened Messages
  import opened FeedLink
  import opened Batching
  import opened Publisher

  /** When the trade call and the quote call of a flush read the clock. */
  datatype Clock = Clock(trades: int, quotes: int)

  datatype Feed = Feed(buffers: Buffers<TradeRow, Quote>, link: Link)

  const EMPTY: Buffers<TradeRow, Quote> := Buffers([], [], [], [], 0, 0)

  // ---------- one flush ----------

  /** Which publish calls of a flush raise on this link. */
  function LuckOf(f: Feed, at: Clock): Luck
    requires Ordered(f.link.cache)
  {
    var (l, o) := Performed(f.link, PublishTrades(f.buffers.trades), at.trades);
    Luck(o == Raised, Performed(l, PublishQuotes(f.buffers.quotes), at.quotes).1 == Raised)
  }

  /** The link after the trade call and, unless that raised, the quote call. */
  function LinkFlushed(f: Feed, at: Clock): (l: Link)
    requires Ordered(f.link.cache)
    ensures Ordered(l.cache)
  {
    var (l, o) := Performed(f.link, PublishTrades(f.buffers.trades), at.trades);
    CacheStaysOrdered(l.cache, PublishQuotes(f.buffers.quotes));
    if o == Raised then l else Performed(l, PublishQuotes(f.buffers.quotes), at.quotes).0
  }

  function FlushedFeed(f: Feed, at: Clock): (f': Feed)
    requires Ordered(f.link.cache)
    ensures Ordered(f'.link.cache)
  {
    Feed(Flushed(f.buffers, LuckOf(f, at)), LinkFlushed(f, at))
  }

  /** The trade call raises exactly when there are trades and the connect it makes loses its resync. */
  lemma TradesRaiseIff(f: Feed, at: Clock)
    requires Ordered(f.link.cache)
    ensures LuckOf(f, at).tradesRaise <==> f.buffers.trades != [] && LosesResync(f.link, at.trades)
  {
    hide SendOf;
    hide LosesResync;
    if f.buffers.trades != [] {
      assert f.link.(cache := CacheAfter(f.link.cache, PublishTrades(f.buffers.trades))) == f.link;
      RaisedIff(f.link, Trades(f.buffers.trades), at.trades);
    }
  }

  /** The link as the quote call finds it: after the trade call, with the quotes remembered. */
  function BeforeQuotes(f: Feed, at: Clock): (l: Link)
    requires Ordered(f.link.cache)
    ensures Ordered(l.cache)
  {
    var op := PublishQuotes(f.buffers.quotes);
    var l := Performed(f.link, PublishTrades(f.buffers.trades), at.trades).0;
    CacheStaysOrdered(l.cache, op);
    l.(cache := CacheAfter(l.cache, op))
  }

  lemma QuotesRaiseIff(f: Feed, at: Clock)
    requires Ordered(f.link.cache)
    ensures LuckOf(f, at).quotesRaise <==> f.buffers.quotes != [] && LosesResync(BeforeQuotes(f, at), at.quotes)
  {
    hide SendOf;
    hide LosesResync;
    if f.buffers.quotes != [] {
      RaisedIff(BeforeQuotes(f, at), Quotes(f.buffers.quotes), at.quotes);
    }
  }

  lemma NothingToPublish(l: Link, now: int)
    requires Ordered(l.cache)
    ensures Performed(l, PublishTrades([]), now) == (l, NotDelivered)
    ensures Performed(l, PublishQuotes([]), now) == (l, NotDelivered)
  {
  }

  // ---------- runs ----------

  /** `Control` is any other use of the publisher; `Weather` sets how connects and writes turn out. */
  datatype FeedEvent = Tick(trade: TradeRow, at: Clock)
                     | TopOfBook(quote: Quote, at: Clock)
                     | FlushTimer(at: Clock)
                     | Control(op: Op, now: int)
                     | Weather(accepts: bool, budget: nat)

  /** The feed as it is when an event decides whether to flush. */
  function Buffered(f: Feed, e: FeedEvent): (f': Feed)
    ensures f'.link == f.link
  {
    match e
    case Tick(t, _) => f.(buffers := f.buffers.(trades := f.buffers.trades + [t]))
    case TopOfBook(q, _) => f.(buffers := f.buffers.(quotes := f.buffers.quotes + [q]))
    case _ => f
  }

  function Next(f: Feed, e: FeedEvent, maxBuffer: nat): (f': Feed)
    requires Ordered(f.link.cache)
    ensures Ordered(f'.link.cache)
  {
    var f1 := Buffered(f, e);
    match e
    case Tick(_, at) => if |f1.buffers.trades| >= maxBuffer then FlushedFeed(f1, at) else f1
    case TopOfBook(_, at) => if |f1.buffers.quotes| >= maxBuffer then FlushedFeed(f1, at) else f1
    case FlushTimer(at) => FlushedFeed(f1, at)
    case Control(op, now) =>
      CacheStaysOrdered(f.link.cache, op);
      f.(link := Performed(f.link, op, now).0)
    case Weather(accepts, budget) =>
      f.(link := f.link.(wire := f.link.wire.(accepts := accepts, budget := budget)))
  }

  function RunFeed(start: Link, events: seq<FeedEvent>, maxBuffer: nat): (f: Feed)
    requires Ordered(start.cache)
    ensures Ordered(f.link.cache)
  {
    if events == [] then Feed(EMPTY, start)
    else Next(RunFeed(start, events[..|events| - 1], maxBuffer), events[|events| - 1], maxBuffer)
  }

  /** What an event is to the buffers, its luck read off the link. */
  function BatchEvent(f: Feed, e: FeedEvent): seq<Event<TradeRow, Quote>>
    requires Ordered(f.link.cache)
  {
    match e
    case Tick(t, at) => [EmitTrade(t, LuckOf(Buffered(f, e), at))]
    case TopOfBook(q, at) => [EmitQuote(q, LuckOf(Buffered(f, e), at))]
    case FlushTimer(at) => [Timer(LuckOf(f, at))]
    case _ => []
  }

  function BatchEvents(start: Link, events: seq<FeedEvent>, maxBuffer: nat): seq<Event<TradeRow, Quote>>
    requires Ordered(start.cache)
  {
    if events == [] then []
    else
      var earlier := events[..|events| - 1];
      BatchEvents(start, earlier, maxBuffer)
      + BatchEvent(RunFeed(start, earlier, maxBuffer), events[|events| - 1])
  }

  lemma NextMovesTheBuffers(f: Feed, e: FeedEvent, maxBuffer: nat)
    requires Ordered(f.link.cache)
    ensures var es := BatchEvent(f, e);
      && |es| <= 1
      && Next(f, e, maxBuffer).buffers == if es == [] then f.buffers else After(f.buffers, es[0], maxBuffer)
  {
    hide LuckOf;
    hide LinkFlushed;
    hide Flushed;
  }

  /** Whatever the link does, the buffers are those of the batching machine. */
  lemma {:induction false} FeedRunsTheBuffers(start: Link, events: seq<FeedEvent>, maxBuffer: nat)
    requires Ordered(start.cache)
    ensures RunFeed(start, events, maxBuffer).buffers == Run(BatchEvents(start, events, maxBuffer), maxBuffer)
  {
    if events != [] {
      hide Next;
      hide BatchEvent;
      hide After;
      var earlier, e := events[..|events| - 1], events[|events| - 1];
      var f, done := RunFeed(start, earlier, maxBuffer), BatchEvents(start, earlier, maxBuffer);
      FeedRunsTheBuffers(start, earlier, maxBuffer);
      NextMovesTheBuffers(f, e, maxBuffer);
      var es := BatchEvent(f, e);
      if es == [] {
        assert done + es == done;
      } else {
        assert es == [es[0]] && (done + es)[..|done|] == done;
      }
    }
  }

  // ---------- nothing is lost ----------

  function Ticks(events: seq<FeedEvent>): seq<TradeRow> {
    if events == [] then []
    else
      var e := events[|events| - 1];
      Ticks(events[..|events| - 1]) + if e.Tick? then [e.trade] else []
  }

  function Book(events: seq<FeedEvent>): seq<Quote> {
    if events == [] then []
    else
      var e := events[|events| - 1];
      Book(events[..|events| - 1]) + if e.TopOfBook? then [e.quote] else []
  }

  lemma {:induction false} BatchEventsEmit(start: Link, events: seq<FeedEvent>, maxBuffer: nat)
    requires Ordered(start.cache)
    ensures EmittedTrades(BatchEvents(start, events, maxBuffer)) == Ticks(events)
    ensures EmittedQuotes(BatchEvents(start, events, maxBuffer)) == Book(events)
  {
    if events != [] {
      hide BatchEvent;
      hide RunFeed;
      hide EmittedTrades;
      hide EmittedQuotes;
      var earlier, e := events[..|events| - 1], events[|events| - 1];
      var f, done := RunFeed(start, earlier, maxBuffer), BatchEvents(start, earlier, maxBuffer);
      BatchEventsEmit(start, earlier, maxBuffer);
      BatchEventEmits(f, e, done);
    } else {
      NothingEmitted();
    }
  }

  lemma NothingEmitted()
    ensures EmittedTrades<TradeRow, Quote>([]) == [] && EmittedQuotes<TradeRow, Quote>([]) == []
  {
  }

  lemma BatchEventEmits(f: Feed, e: FeedEvent, done: seq<Event<TradeRow, Quote>>)
    requires Ordered(f.link.cache)
    ensures var more := done + BatchEvent(f, e);
      && EmittedTrades(more) == EmittedTrades(done) + (if e.Tick? then [e.trade] else [])
      && EmittedQuotes(more) == EmittedQuotes(done) + (if e.TopOfBook? then [e.quote] else [])
  {
    hide LuckOf;
    var es := BatchEvent(f, e);
    if es == [] {
      assert done + es == done;
    } else {
      assert (done + es)[..|done|] == done;
    }
  }

  /** Batches handed to the publisher, then the live buffer, are the emitted ticks, whatever the link does. */
  lemma FeedConservesTicks(start: Link, events: seq<FeedEvent>, maxBuffer: nat)
    requires Ordered(start.cache)
    ensures Handed(RunFeed(start, events, maxBuffer).buffers) == (Ticks(events), Book(events))
  {
    FeedRunsTheBuffers(start, events, maxBuffer);
    BatchEventsEmit(start, events, maxBuffer);
    NothingLostOrRepeated(BatchEvents(start, events, maxBuffer), maxBuffer);
    hide Handed;
    hide RunFeed;
  }

  /** The last flush hands every quote over exactly when no trades ahead of them meet a lost resync. */
  predicate DrainsQuotes(f: Feed, at: Clock)
    requires Ordered(f.link.cache)
  {
    f.buffers.quotes == [] || f.buffers.trades == [] || !LosesResync(f.link, at.trades)
  }

  /**
   The final drain always hands over the trades, and the quotes exactly when none waits, no trade
   does, or the trade call does not meet a link that loses its resync.
   */
  lemma FinalDrainIff(start: Link, events: seq<FeedEvent>, maxBuffer: nat, at: Clock)
    requires Ordered(start.cache)
    ensures var f := RunFeed(start, events, maxBuffer);
      var drained := FlushedFeed(f, at).buffers;
      && Concat(drained.tradeBatches) == Ticks(events)
      && Concat(drained.quoteBatches) <= Book(events)
      && (Concat(drained.quoteBatches) == Book(events) <==> DrainsQuotes(f, at))
  {
    var f := RunFeed(start, events, maxBuffer);
    var drained := FlushedFeed(f, at).buffers;
    FeedConservesTicks(start, events, maxBuffer);
    hide RunFeed;
    TradesRaiseIff(f, at);
    FlushConserves(f.buffers, LuckOf(f, at));
    hide LuckOf;
    hide LosesResync;
    hide Concat;
    assert drained.trades == [] && (drained.quotes == [] <==> DrainsQuotes(f, at));
    assert Concat(drained.tradeBatches) + [] == Concat(drained.tradeBatches);
    assert Book(events) == Concat(drained.quoteBatches) + drained.quotes;
    assert Concat(drained.quoteBatches) + [] == Concat(drained.quoteBatches);
  }

  // ---------- the totals ----------

  /** A batch is swapped out and the connect made for it loses its resync. */
  predicate FlushLoses(f: Feed, at: Clock)
    requires Ordered(f.link.cache)
  {
    || (f.buffers.trades != [] && LosesResync(f.link, at.trades))
    || (f.buffers.quotes != [] && LosesResync(BeforeQuotes(f, at), at.quotes))
  }

  predicate MissesBatch(f: Feed, e: FeedEvent, maxBuffer: nat)
    requires Ordered(f.link.cache)
  {
    match e
    case Tick(_, at) => |f.buffers.trades| + 1 >= maxBuffer && FlushLoses(Buffered(f, e), at)
    case TopOfBook(_, at) => |f.buffers.quotes| + 1 >= maxBuffer && FlushLoses(Buffered(f, e), at)
    case FlushTimer(at) => FlushLoses(f, at)
    case _ => false
  }

  lemma FlushLosesIff(f: Feed, at: Clock)
    requires Ordered(f.link.cache)
    ensures FlushLoses(f, at) <==> FlushMisses(f.buffers, LuckOf(f, at))
  {
    TradesRaiseIff(f, at);
    QuotesRaiseIff(f, at);
    hide LuckOf;
    hide LosesResync;
  }

  lemma MissesBatchIff(f: Feed, e: FeedEvent, maxBuffer: nat)
    requires Ordered(f.link.cache)
    ensures MissesBatch(f, e, maxBuffer) <==>
      BatchEvent(f, e) != [] && Misses(f.buffers, BatchEvent(f, e)[0], maxBuffer)
  {
    hide FlushLoses;
    hide FlushMisses;
    hide LuckOf;
    match e
    case Tick(_, at) => FlushLosesIff(Buffered(f, e), at);
    case TopOfBook(_, at) => FlushLosesIff(Buffered(f, e), at);
    case FlushTimer(at) => FlushLosesIff(f, at);
    case _ =>
  }

  /** How many events of a run lose a batch they have swapped out. */
  function BatchesMissed(start: Link, events: seq<FeedEvent>, maxBuffer: nat): nat
    requires Ordered(start.cache)
  {
    if events == [] then 0
    else
      var earlier := events[..|events| - 1];
      BatchesMissed(start, earlier, maxBuffer)
      + if MissesBatch(RunFeed(start, earlier, maxBuffer), events[|events| - 1], maxBuffer) then 1 else 0
  }

  /** The totals count what was handed to the publisher exactly when no event's flush lost a batch. */
  lemma {:induction false} TotalsMatchIff(start: Link, events: seq<FeedEvent>, maxBuffer: nat)
    requires Ordered(start.cache)
    ensures var b := RunFeed(start, events, maxBuffer).buffers;
      CountsNoMore(b) && (Counted(b) <==> BatchesMissed(start, events, maxBuffer) == 0)
  {
    if events != [] {
      hide Next;
      hide BatchEvent;
      hide MissesBatch;
      hide Misses;
      hide After;
      hide Counted;
      hide CountsNoMore;
      var earlier, e := events[..|events| - 1], events[|events| - 1];
      var f := RunFeed(start, earlier, maxBuffer);
      TotalsMatchIff(start, earlier, maxBuffer);
      MissesBatchIff(f, e, maxBuffer);
      NextMovesTheBuffers(f, e, maxBuffer);
      if BatchEvent(f, e) != [] {
        CountsKeptIff(f.buffers, BatchEvent(f, e)[0], maxBuffer);
      }
    } else {
      NothingCounted(start, maxBuffer);
    }
  }

  lemma NothingCounted(start: Link, maxBuffer: nat)
    requires Ordered(start.cache)
    ensures var b := RunFeed(start, [], maxBuffer).buffers; CountsNoMore(b) && Counted(b)
  {
  }

  // ---------- the bound ----------

  /** A quote fills its buffer behind trades whose publish call meets a link that loses its resync. */
  predicate Strands(f: Feed, e: FeedEvent, maxBuffer: nat)
    requires Ordered(f.link.cache)
  {
    && e.TopOfBook? && |f.buffers.quotes| + 1 >= maxBuffer
    && f.buffers.trades != [] && LosesResync(f.link, e.at.trades)
  }

  lemma StrandsIff(f: Feed, e: FeedEvent, maxBuffer: nat)
    requires Ordered(f.link.cache)
    ensures Strands(f, e, maxBuffer) <==>
      BatchEvent(f, e) != [] && StrandsQuotes(f.buffers, BatchEvent(f, e)[0], maxBuffer)
  {
    if e.TopOfBook? {
      TradesRaiseIff(Buffered(f, e), e.at);
    }
    hide LuckOf;
    hide LosesResync;
  }

  /** Both buffers stay below the bound all through a run exactly when no event strands quotes on its way. */
  lemma BoundedThroughoutIff(start: Link, events: seq<FeedEvent>, maxBuffer: nat)
    requires Ordered(start.cache) && maxBuffer >= 1
    ensures (forall k | 0 <= k <= |events| :: Bounded(RunFeed(start, events[..k], maxBuffer).buffers, maxBuffer))
       <==> (forall k | 0 <= k < |events| :: !Strands(RunFeed(start, events[..k], maxBuffer), events[k], maxBuffer))
  {
    hide Bounded;
    hide Strands;
    hide RunFeed;
    if forall k | 0 <= k <= |events| :: Bounded(RunFeed(start, events[..k], maxBuffer).buffers, maxBuffer) {
      forall k | 0 <= k < |events|
        ensures !Strands(RunFeed(start, events[..k], maxBuffer), events[k], maxBuffer)
      {
        BoundStep(start, events, maxBuffer, k);
      }
    }
    if forall k | 0 <= k < |events| :: !Strands(RunFeed(start, events[..k], maxBuffer), events[k], maxBuffer) {
      forall k | 0 <= k <= |events|
        ensures Bounded(RunFeed(start, events[..k], maxBuffer).buffers, maxBuffer)
      {
        BoundedUpTo(start, events, maxBuffer, k);
      }
    }
  }

  lemma {:induction false} BoundedUpTo(start: Link, events: seq<FeedEvent>, maxBuffer: nat, k: nat)
    requires Ordered(start.cache) && maxBuffer >= 1 && k <= |events|
    requires forall j | 0 <= j < k :: !Strands(RunFeed(start, events[..j], maxBuffer), events[j], maxBuffer)
    ensures Bounded(RunFeed(start, events[..k], maxBuffer).buffers, maxBuffer)
  {
    if k > 0 {
      hide Strands;
      hide Next;
      BoundedUpTo(start, events, maxBuffer, k - 1);
      BoundStep(start, events, maxBuffer, k - 1);
    }
  }

  lemma BoundStep(start: Link, events: seq<FeedEvent>, maxBuffer: nat, k: nat)
    requires Ordered(start.cache) && maxBuffer >= 1 && k < |events|
    requires Bounded(RunFeed(start, events[..k], maxBuffer).buffers, maxBuffer)
    ensures Bounded(RunFeed(start, events[..k + 1], maxBuffer).buffers, maxBuffer) <==>
      !Strands(RunFeed(start, events[..k], maxBuffer), events[k], maxBuffer)
  {
    hide Bounded;
    hide Strands;
    hide StrandsQuotes;
    hide BatchEvent;
    hide After;
    hide Next;
    var f, e := RunFeed(start, events[..k], maxBuffer), events[k];
    assert events[..k + 1][..k] == events[..k];
    StrandsIff(f, e, maxBuffer);
    NextMovesTheBuffers(f, e, maxBuffer);
    if BatchEvent(f, e) != [] {
      BoundKeptIff(f.buffers, BatchEvent(f, e)[0], maxBuffer);
    }
  }

  lemma RunFeedNext(start: Link, events: seq<FeedEvent>, e: FeedEvent, maxBuffer: nat)
    requires Ordered(start.cache)
    ensures RunFeed(start, events + [e], maxBuffer) == Next(RunFeed(start, events, maxBuffer), e, maxBuffer)
  {
    assert (events + [e])[..|events|] == events;
  }

  /** The feed of the witness before its last quote: something cached, one trade, one quote, a retry due later. */
  predicate AboutToStrand(f: Feed) {
    && f.link.cache == NOTHING.(products := ["A"]) && f.link.sock.None? && f.link.nextRetry == RETRY_INTERVAL
    && f.link.wire.accepts && f.link.wire.budget == 0
    && |f.buffers.trades| == 1 && |f.buffers.quotes| == 1
  }

  /** A catalog set while detached, then a peer that accepts and hangs up, a trade and two quotes. */
  function HangUpRun(t: TradeRow, q: Quote): seq<FeedEvent> {
    [Control(SetProducts(["A"]), 0), Weather(true, 0), Tick(t, Clock(0, 0)),
     TopOfBook(q, Clock(0, 0)), TopOfBook(q, Clock(RETRY_INTERVAL, RETRY_INTERVAL))]
  }

  /** It leaves a buffer of two holding two quotes, and a trade handed over but not counted. */
  lemma HangingUpStrandsQuotes(t: TradeRow, q: Quote)
    ensures var start := Link(NOTHING, None, [], 0, Wire(false, 0, 0, []));
      var b := RunFeed(start, HangUpRun(t, q), 2).buffers;
      !Bounded(b, 2) && !Counted(b)
  {
    var start := Link(NOTHING, None, [], 0, Wire(false, 0, 0, []));
    var events := HangUpRun(t, q);
    assert events[..4] == [events[0], events[1], events[2], events[3]] && events[..5] == events;
    FirstFour(start, events[0], events[1], events[2], events[3]);
    hide RunFeed;
    var f := RunFeed(start, events[..4], 2);
    AboutToStrandThenDoes(f, q);
    BoundStep(start, events, 2, 4);
    TotalsMatchIff(start, events, 2);
    hide Bounded;
    hide Counted;
    hide MissesBatch;
    hide Strands;
  }

  lemma AboutToStrandThenDoes(f: Feed, q: Quote)
    requires AboutToStrand(f)
    ensures Bounded(f.buffers, 2)
    ensures var e := TopOfBook(q, Clock(RETRY_INTERVAL, RETRY_INTERVAL));
      Strands(f, e, 2) && MissesBatch(f, e, 2)
  {
    assert |ResyncMessages(f.link.cache)| > 0;
  }

  lemma FirstFour(start: Link, e0: FeedEvent, e1: FeedEvent, e2: FeedEvent, e3: FeedEvent)
    requires start == Link(NOTHING, None, [], 0, Wire(false, 0, 0, []))
    requires e0 == Control(SetProducts(["A"]), 0) && e1 == Weather(true, 0) && e2.Tick? && e3.TopOfBook?
    ensures AboutToStrand(RunFeed(start, [e0, e1, e2, e3], 2))
  {
    hide RunFeed;
    hide Next;
    hide AboutToStrand;
    NoFeedYet(start);
    FourSteps(start, e0, e1, e2, e3);
    RunFeedNext(start, [], e0, 2);
    RunFeedNext(start, [e0], e1, 2);
    RunFeedNext(start, [e0, e1], e2, 2);
    RunFeedNext(start, [e0, e1, e2], e3, 2);
    assert [] + [e0] == [e0] && [e0] + [e1] == [e0, e1] && [e0, e1] + [e2] == [e0, e1, e2];
    assert [e0, e1, e2] + [e3] == [e0, e1, e2, e3];
  }

  lemma FourSteps(start: Link, e0: FeedEvent, e1: FeedEvent, e2: FeedEvent, e3: FeedEvent)
    requires start == Link(NOTHING, None, [], 0, Wire(false, 0, 0, []))
    requires e0 == Control(SetProducts(["A"]), 0) && e1 == Weather(true, 0) && e2.Tick? && e3.TopOfBook?
    ensures AboutToStrand(Next(Next(Next(Next(Feed(EMPTY, start), e0, 2), e1, 2), e2, 2), e3, 2))
  {
    hide FlushedFeed;
    hide Performed;
    SetWhileDetached(start);
    var f1 := Next(Feed(EMPTY, start), e0, 2);
    assert f1 == Feed(EMPTY, start.(cache := NOTHING.(products := ["A"]), nextRetry := RETRY_INTERVAL));
  }

  lemma NoFeedYet(start: Link)
    requires Ordered(start.cache)
    ensures RunFeed(start, [], 2) == Feed(EMPTY, start)
  {
  }

  lemma SetWhileDetached(l: Link)
    requires Ordered(l.cache) && l.sock.None? && l.nextRetry == 0 && !l.wire.accepts
    ensures Performed(l, SetProducts(["A"]), 0).0
         == l.(cache := l.cache.(products := ["A"]), nextRetry := RETRY_INTERVAL)
  {
  }

  /** How many events of a run strand quotes. */
  function Strandings(start: Link, events: seq<FeedEvent>, maxBuffer: nat): nat
    requires Ordered(start.cache)
  {
    if events == [] then 0
    else
      var earlier := events[..|events| - 1];
      Strandings(start, earlier, maxBuffer)
      + if Strands(RunFeed(start, earlier, maxBuffer), events[|events| - 1], maxBuffer) then 1 else 0
  }

  /** In every run trades stay below the bound, and quotes exceed it by no more than the stranding events. */
  lemma {:induction false} OverrunIsStrandings(start: Link, events: seq<FeedEvent>, maxBuffer: nat)
    requires Ordered(start.cache) && maxBuffer >= 1
    ensures var b := RunFeed(start, events, maxBuffer).buffers;
      |b.trades| < maxBuffer && |b.quotes| < maxBuffer + Strandings(start, events, maxBuffer)
  {
    if events != [] {
      var earlier, e := events[..|events| - 1], events[|events| - 1];
      var f, over := RunFeed(start, earlier, maxBuffer), Strandings(start, earlier, maxBuffer);
      OverrunIsStrandings(start, earlier, maxBuffer);
      StrandsIff(f, e, maxBuffer);
      NextMovesTheBuffers(f, e, maxBuffer);
      hide BatchEvent;
      if BatchEvent(f, e) != [] {
        OverrunStep(f.buffers, BatchEvent(f, e)[0], maxBuffer, over);
      }
      hide Strands;
      hide StrandsQuotes;
      hide After;
      hide Next;
    }
  }

  // ---------- the handler ----------

  /** The trade half of a flush, and whether its publish call raised. */
  function TradesShipped(f: Feed, now: int): (r: (Feed, bool))
    requires Ordered(f.link.cache)
    ensures Ordered(r.0.link.cache)
  {
    var b := f.buffers;
    if b.trades == [] then (f, false)
    else
      var (l, o) := Performed(f.link, PublishTrades(b.trades), now);
      (Feed(b.(trades := [], tradeBatches := b.tradeBatches + [b.trades],
               totalTrades := b.totalTrades + if o == Raised then 0 else |b.trades|), l), o == Raised)
  }

  function QuotesShipped(f: Feed, now: int): (Feed, bool)
    requires Ordered(f.link.cache)
  {
    var b := f.buffers;
    if b.quotes == [] then (f, false)
    else
      var (l, o) := Performed(f.link, PublishQuotes(b.quotes), now);
      (Feed(b.(quotes := [], quoteBatches := b.quoteBatches + [b.quotes],
               totalQuotes := b.totalQuotes + if o == Raised then 0 else |b.quotes|), l), o == Raised)
  }

  class FeedHandler {
    const maxBuffer: nat
    const publisher: FeedPublisher
    var trades: seq<TradeRow>
    var quotes: seq<Quote>
    var totalTrades: nat
    var totalQuotes: nat
    ghost var tradeBatches: seq<seq<TradeRow>>
    ghost var quoteBatches: seq<seq<Quote>>

    ghost predicate Valid()
      reads this, publisher
    {
      publisher.Valid()
    }

    ghost function State(): Feed
      reads this, publisher, publisher.net
    {
      Feed(Buffers(trades, quotes, tradeBatches, quoteBatches, totalTrades, totalQuotes), publisher.State())
    }

    constructor (maxBuffer: nat, publisher: FeedPublisher)
      requires publisher.Valid()
      ensures this.maxBuffer == maxBuffer && this.publisher == publisher && Valid()
      ensures State() == RunFeed(publisher.State(), [], maxBuffer)
    {
      this.maxBuffer, this.publisher := maxBuffer, publisher;
      trades, quotes, tradeBatches, quoteBatches := [], [], [], [];
      totalTrades, totalQuotes := 0, 0;
    }

    /** Swaps out and ships trades, then quotes; a publish call that raises ends the flush. */
    method Flush(at: Clock) returns (raised: bool)
      requires Valid()
      modifies this, publisher, publisher.net
      ensures Valid() && State() == FlushedFeed(old(State()), at)
      ensures var luck := LuckOf(old(State()), at); raised <==> luck.tradesRaise || luck.quotesRaise
    {
      hide TradesShipped;
      hide QuotesShipped;
      hide State;
      CacheIsOrdered();
      FlushInSteps(State(), at);
      raised := ShipTrades(at.trades);
      if raised {
        return true;
      }
      raised := ShipQuotes(at.quotes);
    }

    lemma CacheIsOrdered()
      requires Valid()
      ensures Ordered(State().link.cache)
    {
    }

    method ShipTrades(now: int) returns (raised: bool)
      requires Valid()
      modifies this, publisher, publisher.net
      ensures Valid() && (State(), raised) == TradesShipped(old(State()), now)
    {
      hide Performed;
      if trades == [] {
        return false;
      }
      var batch := trades;
      trades := [];
      tradeBatches := tradeBatches + [batch];
      var outcome := publisher.PublishTradeRows(batch, now);
      if outcome == Raised {
        return true;
      }
      totalTrades := totalTrades + |batch|;
      return false;
    }

    method ShipQuotes(now: int) returns (raised: bool)
      requires Valid()
      modifies this, publisher, publisher.net
      ensures Valid() && (State(), raised) == QuotesShipped(old(State()), now)
    {
      hide Performed;
      if quotes == [] {
        return false;
      }
      var batch := quotes;
      quotes := [];
      quoteBatches := quoteBatches + [batch];
      var outcome := publisher.PublishQuoteRows(batch, now);
      if outcome == Raised {
        return true;
      }
      totalQuotes := totalQuotes + |batch|;
      return false;
    }

    static lemma FlushInSteps(f: Feed, at: Clock)
      requires Ordered(f.link.cache)
      ensures var (shipped, raised) := TradesShipped(f, at.trades);
        var luck := LuckOf(f, at);
        if raised then FlushedFeed(f, at) == shipped && luck.tradesRaise
        else FlushedFeed(f, at) == QuotesShipped(shipped, at.quotes).0
             && (QuotesShipped(shipped, at.quotes).1 <==> luck.tradesRaise || luck.quotesRaise)
    {
      hide Performed;
      NothingToPublish(f.link, at.trades);
      NothingToPublish(TradesShipped(f, at.trades).0.link, at.quotes);
    }

    method Emit(trade: TradeRow, at: Clock)
      requires Valid()
      modifies this, publisher, publisher.net
      ensures Valid() && State() == Next(old(State()), Tick(trade, at), maxBuffer)
    {
      trades := trades + [trade];
      if |trades| >= maxBuffer {
        var raised := Flush(at);
      }
    }

    method EmitTopOfBook(quote: Quote, at: Clock)
      requires Valid()
      modifies this, publisher, publisher.net
      ensures Valid() && State() == Next(old(State()), TopOfBook(quote, at), maxBuffer)
    {
      quotes := quotes + [quote];
      if |quotes| >= maxBuffer {
        var raised := Flush(at);
      }
    }
  }
}
