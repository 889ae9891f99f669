/**
 From the publisher's caches to the screen: the bytes written on one connection, in whatever chunks
 they arrive, bring the store the server keeps into agreement with what the publisher remembers,
 and the next cycle of the engine copies it.
 */
module Delivery {
  import opened Types
  import opened Sequences
  import opened Framing
  import opened Messages
  import opened TapeLaws
  import opened FeedLink
  import opened FeedServers
  import opened Terminal
  import opened Engine
  import CommandLaws
  import FeedSync
  import Store

  /** The bytes of everything the publisher has written on its current connection. */
  function WrittenBytes(sent: seq<Message>, encode: Encoder): Bytes {
    Encoded(EncodedLines(sent, encode))
  }

  /**
   However the two ends got here, a server that has read what the publisher wrote on the connection
   it holds keeps a store that agrees with the publisher's caches, whatever it kept before.
   */
  lemma ServedStoreAgrees(events: seq<FeedSync.Event>, s: Served, chunks: seq<Bytes>,
                          encode: Encoder, decode: Decoder, cap: nat)
    requires var link := FeedSync.RunOf(events).link;
      && link.sock.Some?
      && Faithful(link.wire.sent, encode, decode)
      && Concat(chunks) == WrittenBytes(link.wire.sent, encode)
    ensures Agrees(MirrorOf(LinesHandled(s, Lines(Concat(chunks)), decode, cap).store),
                   FeedSync.RunOf(events).link.cache)
  {
    var link := FeedSync.RunOf(events).link;
    hide FeedSync.RunOf;
    hide Agrees;
    hide LinesHandled;
    LinkDeliversMessages(s, link.wire.sent, chunks, encode, decode, cap);
    HandledAllMirror(s.store, link.wire.sent, cap);
    hide HandledAll;
  }

  /** Read in any chunks, the tapes go on from what built them before by the trades and backfills sent. */
  lemma ServedTapesFollow(messages: seq<Message>, s: Served, before: seq<Store.TapeEvent>, chunks: seq<Bytes>,
                          encode: Encoder, decode: Decoder, cap: nat)
    requires Faithful(messages, encode, decode) && Concat(chunks) == WrittenBytes(messages, encode)
    requires Follows(s.store, before, cap)
    ensures Follows(LinesHandled(s, Lines(Concat(chunks)), decode, cap).store, before + TapeEventsIn(messages), cap)
  {
    hide Follows;
    hide LinesHandled;
    LinkDeliversMessages(s, messages, chunks, encode, decode, cap);
    MessagesFollow(s.store, messages, before, cap);
    hide HandledAll;
  }

  /** The server itself: after a connection each tape is the newest part of what was sent on top of the rest. */
  method ReceiveTapes(server: FeedServer, chunks: seq<Bytes>, ghost messages: seq<Message>,
                      ghost before: seq<Store.TapeEvent>, ghost encode: Encoder)
    requires Faithful(messages, encode, server.decode)
    requires Concat(UntilClosed(chunks)) == WrittenBytes(messages, encode)
    requires Follows(server.store.State(), before, server.store.historyCap)
    modifies server, server.store
    ensures var tapes := before + TapeEventsIn(messages);
      forall s: string ::
        server.store.State().TapeOf(s) == Store.LastN(server.store.historyCap, Store.ReferenceTape(tapes, s))
  {
    ServedTapesFollow(messages, server.State(), before, UntilClosed(chunks), encode, server.decode,
                      server.store.historyCap);
    hide LinesHandled;
    hide Lines;
    var rest := server.Serve(chunks);
  }

  // ---------- what the engine then holds ----------

  /** Every cached quote of a watched symbol is what the engine holds, unless the stock poller has one. */
  ghost predicate ShowsQuotes(quotes: map<string, Quote>, symbols: seq<string>, c: Cache, live: map<string, Quote>) {
    forall s | s in c.quotes && s != "" && s in symbols ::
      s in quotes && quotes[s] == if s in live then live[s] else c.quotes[s]
  }

  ghost predicate ShowsUniverse(symbols: seq<string>, c: Cache) {
    c.universe != [] ==> forall s | s in c.universe :: s in symbols
  }

  /** A cycle over a store that agrees with the caches shows their quotes, and their universe once it merges. */
  lemma CycleShowsTheCache(e: EngineState, st: Store.StoreState, live: map<string, Quote>, merge: bool, c: Cache)
    requires Agrees(MirrorOf(st), c)
    ensures ShowsQuotes(Observed(e, st, live, merge).quotes, e.symbols, c, live)
    ensures merge ==> ShowsUniverse(Observed(e, st, live, merge).symbols, c)
    ensures forall s | s in e.symbols :: s in Observed(e, st, live, merge).symbols
  {
    CommandLaws.JoinedBehind(e.symbols, st.universe);
  }

  /**
   Symbol by symbol, what a cycle leaves in the engine's quotes: the stock poller's, else the store's for
   a watched symbol, else what was there.
   */
  lemma CycleQuotesExactly(e: EngineState, st: Store.StoreState, live: map<string, Quote>, merge: bool, s: string)
    ensures var quotes := Observed(e, st, live, merge).quotes;
      if s in live then s in quotes && quotes[s] == live[s]
      else if s in e.symbols && s in st.lastQuote then s in quotes && quotes[s] == st.lastQuote[s]
      else (s in quotes <==> s in e.quotes) && (s in quotes ==> quotes[s] == e.quotes[s])
  {
  }

  lemma {:induction false} CommandsKeepSymbols(e: EngineState, commands: seq<Command>)
    ensures forall s | s in e.symbols :: s in ProcessedAll(e, commands).symbols
  {
    if commands != [] {
      CommandsKeepSymbols(e, commands[..|commands| - 1]);
    }
  }

  /** Two cycles later, the first of them merging, every symbol of the universe shows its cached quote. */
  lemma TwoCyclesShowTheUniverse(e: EngineState, earlier: seq<Command>, later: seq<Command>,
                                 st: Store.StoreState, st': Store.StoreState,
                                 live: map<string, Quote>, live': map<string, Quote>, merge: bool, c: Cache)
    requires Agrees(MirrorOf(st), c) && Agrees(MirrorOf(st'), c)
    ensures var once := Observed(ProcessedAll(e, earlier), st, live, true);
      ShowsQuotes(Observed(ProcessedAll(once, later), st', live', merge).quotes, c.universe, c, live')
  {
    hide Observed;
    hide ProcessedAll;
    hide Agrees;
    var once := Observed(ProcessedAll(e, earlier), st, live, true);
    CycleShowsTheCache(ProcessedAll(e, earlier), st, live, true, c);
    CommandsKeepSymbols(once, later);
    CycleShowsTheCache(ProcessedAll(once, later), st', live', merge, c);
  }

  /**
   The objects themselves: the server reads the connection, the engine runs its next cycle, and the
   terminal holds what the publisher remembers.
   */
  method ReceiveAndCycle(engine: TradingEngine, server: FeedServer, chunks: seq<Bytes>, now: int,
                         ghost events: seq<FeedSync.Event>, ghost encode: Encoder)
    requires engine.Valid() && server.store == engine.store && server !in engine.Repr()
    requires var link := FeedSync.RunOf(events).link;
      && link.sock.Some?
      && Faithful(link.wire.sent, encode, server.decode)
      && Concat(UntilClosed(chunks)) == WrittenBytes(link.wire.sent, encode)
    modifies engine.Repr(), server
    ensures engine.Valid()
    ensures Agrees(MirrorOf(engine.store.State()), FeedSync.RunOf(events).link.cache)
    ensures ShowsQuotes(engine.quotes, old(engine.symbols), FeedSync.RunOf(events).link.cache, engine.stocks.quotes)
    ensures forall s | s in engine.stocks.quotes :: s in engine.quotes && engine.quotes[s] == engine.stocks.quotes[s]
    ensures old(engine.CatalogNow().Due(now)) ==> ShowsUniverse(engine.symbols, FeedSync.RunOf(events).link.cache)
  {
    hide FeedSync.RunOf;
    hide Agrees;
    hide LinesHandled;
    hide Lines;
    hide Observed;
    hide ProcessedAll;
    hide Terminal.Trace;
    ghost var c := FeedSync.RunOf(events).link.cache;
    ServedStoreAgrees(events, server.State(), UntilClosed(chunks), encode, server.decode, engine.store.historyCap);
    var rest := server.Serve(chunks);
    ghost var e, st := engine.State(), engine.store.State();
    ghost var m := Machine(e, engine.cmds, [], [], [], []);
    ghost var drained := ProcessedAll(e, engine.cmds);
    CommandsKeepSymbols(e, engine.cmds);
    CycleShowsTheCache(drained, engine.Aside().0, engine.stocks.quotes, engine.CatalogNow().Due(now), c);
    ghost var live, due := engine.stocks.quotes, engine.CatalogNow().Due(now);
    forall s | s in live
      ensures s in Observed(drained, engine.Aside().0, live, due).quotes
      ensures Observed(drained, engine.Aside().0, live, due).quotes[s] == live[s]
    {
      CycleQuotesExactly(drained, engine.Aside().0, live, due, s);
    }
    var steps := engine.Cycle(now, m);
  }
}
