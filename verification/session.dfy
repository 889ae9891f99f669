/**
 A whole session: the engine's loop with the work of the other threads in between, as one program
 over the objects. It is a run of the machine, so the machine's laws hold of what it publishes.
 */
module Session {
  import opened Sequences
  import opened Risk
  import opened Messages
  import opened FeedServers
  import opened Terminal
  import opened TerminalLaws
  import opened ViewLaws
  import opened ControlPlane
  import opened Engine
  import opened Oms
  import Polling
  import Store

  /** What happens before one cycle: commands posted, messages received, stock polls made; then the time. */
  datatype Round = Round(posts: seq<Command>, messages: seq<Message>, passes: seq<Polling.Pass>, now: int)

  function PostsOf(rounds: seq<Round>): seq<Command> {
    if rounds == [] then [] else PostsOf(rounds[..|rounds| - 1]) + rounds[|rounds| - 1].posts
  }

  /** The machine state the objects stand for between two cycles. */
  ghost function At(engine: TradingEngine, server: FeedServer, done: seq<Command>): Machine
    reads engine`quotes, engine`symbols, engine`stockSymbols, engine`focus, engine`histRequested, engine`cmds
    reads engine.store, engine.oms, engine.oms.risk, engine.oms.matcher, engine.oms.portfolio
    reads engine.oms.portfolio.Objects(), server`replies
  {
    Machine(engine.State(), engine.cmds, [], done, SymbolsIn(server.replies), HistoryIn(server.replies))
  }

  lemma AtParts(engine: TradingEngine, server: FeedServer, done: seq<Command>)
    ensures var m := At(engine, server, done);
      && m.engine == engine.State() && m.queue == engine.cmds && m.pending == [] && m.done == done
      && m.handed == SymbolsIn(server.replies) && m.handedHistory == HistoryIn(server.replies)
      && m.engine.requested == engine.store.requested && m.engine.historyRequests == engine.store.historyRequests
  {
  }

  method PostOne(engine: TradingEngine, server: FeedServer, c: Command, ghost done: seq<Command>)
    requires engine.Valid()
    modifies engine`cmds
    ensures engine.Valid() && engine.cmds == old(engine.cmds) + [c] && engine.State() == old(engine.State())
    ensures At(engine, server, done) == Next(old(At(engine, server, done)), Post(c))
  {
    engine.PostCommand(c);
  }

  method PostAll(engine: TradingEngine, server: FeedServer, posts: seq<Command>,
                 ghost m: Machine, ghost sofar: seq<Event>, ghost done: seq<Command>)
    returns (ghost events: seq<Event>)
    requires engine.Valid() && Trace(m, sofar) == At(engine, server, done)
    modifies engine`cmds
    ensures engine.Valid() && engine.cmds == old(engine.cmds) + posts && engine.State() == old(engine.State())
    ensures Trace(m, events) == At(engine, server, done)
  {
    hide Trace;
    hide At;
    hide Next;
    hide OrderManager.State;
    events := sofar;
    for i := 0 to |posts|
      invariant engine.Valid() && engine.cmds == old(engine.cmds) + posts[..i]
      invariant engine.State() == old(engine.State())
      invariant Trace(m, events) == At(engine, server, done)
    {
      TraceNext(m, events, Post(posts[i]));
      PostOne(engine, server, posts[i], done);
      events := events + [Post(posts[i])];
    }
  }

  /** The machine's steps for a message: only a poll takes anything from the engine. */
  function StepsFor(message: Message): seq<Event> {
    if message.PollRequests? then [TakeRequested, TakeHistoryRequests] else []
  }

  lemma MessageSteps(m: Machine, sofar: seq<Event>, at: Machine, s: Served, message: Message, cap: nat)
    requires Trace(m, sofar) == at
    requires at.handed == SymbolsIn(s.replies) && at.handedHistory == HistoryIn(s.replies)
    requires at.engine.requested == s.store.requested && at.engine.historyRequests == s.store.historyRequests
    ensures var s' := MessageServed(s, message, cap);
      Trace(m, sofar + StepsFor(message))
        == at.(engine := at.engine.(requested := s'.store.requested, historyRequests := s'.store.historyRequests),
               handed := SymbolsIn(s'.replies), handedHistory := HistoryIn(s'.replies))
  {
    hide Trace;
    var s' := MessageServed(s, message, cap);
    if message.PollRequests? {
      TraceNext(m, sofar, TakeRequested);
      TraceNext(m, sofar + [TakeRequested], TakeHistoryRequests);
      assert sofar + StepsFor(message) == sofar + [TakeRequested] + [TakeHistoryRequests];
      assert s'.replies[..|s.replies|] == s.replies;
    } else {
      RowsLeaveRequests(s.store, message, cap);
      assert sofar + StepsFor(message) == sofar;
    }
  }

  /** The engine with the request queues as its store now holds them. */
  function WithRequests(e: EngineState, st: Store.StoreState): EngineState {
    e.(requested := st.requested, historyRequests := st.historyRequests)
  }

  function PassesRun(st: Polling.FeedState, passes: seq<Polling.Pass>, cap: nat): Polling.FeedState {
    if passes == [] then st
    else Polling.AfterPass(PassesRun(st, passes[..|passes| - 1], cap), passes[|passes| - 1], cap)
  }

  method Receive(engine: TradingEngine, server: FeedServer, message: Message,
                 ghost m: Machine, ghost sofar: seq<Event>, ghost done: seq<Command>)
    returns (ghost events: seq<Event>)
    requires engine.Valid() && server.store == engine.store && Trace(m, sofar) == At(engine, server, done)
    modifies server, engine.store
    ensures engine.Valid() && Trace(m, events) == At(engine, server, done)
    ensures server.State() == MessageServed(old(server.State()), message, engine.store.historyCap)
    ensures engine.State() == WithRequests(old(engine.State()), engine.store.State())
  {
    hide Trace;
    hide MessageServed;
    hide OrderManager.State;
    events := sofar + StepsFor(message);
    MessageSteps(m, sofar, At(engine, server, done), server.State(), message, engine.store.historyCap);
    server.HandleMessage(message);
    engine.DeskUntouched();
  }

  /** One pass of the loop, after whatever the other threads did since the last. */
  method RunRound(engine: TradingEngine, server: FeedServer, r: Round,
                  ghost m: Machine, ghost sofar: seq<Event>, ghost done: seq<Command>)
    returns (ghost events: seq<Event>)
    requires engine.Valid() && server.store == engine.store && server !in engine.Repr() && engine.cmds == []
    requires Trace(m, sofar) == At(engine, server, done)
    modifies engine.Repr(), server
    ensures engine.Valid() && fresh(engine.Repr() - old(engine.Repr())) && engine.cmds == []
    ensures Trace(m, events) == At(engine, server, done + r.posts)
    ensures engine.view == Published(engine.State())
    ensures var served := MessagesServed(old(server.State()), r.messages, engine.store.historyCap);
      var polled := PassesRun(old(engine.stocks.State()), r.passes, engine.stocks.historyCap);
      && engine.Aside() == (served.store.(requested := [], historyRequests := []), polled.(watched := []))
      && engine.State() == Observed(ProcessedAll(WithRequests(old(engine.State()), served.store), r.posts),
                                    engine.Aside().0, polled.quotes, old(engine.CatalogNow()).Due(r.now))
      && engine.CatalogNow() == old(engine.CatalogNow()).After(engine.Aside().0, r.now)
      && server.replies == served.replies
  {
    hide Trace;
    hide Published;
    hide At;
    hide MessagesServed;
    hide PassesRun;
    hide Observed;
    hide ProcessedAll;
    hide OrderManager.State;
    hide Catalog.After;
    hide TradingEngine.Aside;
    events := Gather(engine, server, r, m, sofar, done);
    AtParts(engine, server, done);
    ghost var cycle := engine.Cycle(r.now, Trace(m, events));
    TraceSplits(m, events, cycle);
    events := events + cycle;
    AtIs(engine, server, done + r.posts, Trace(m, events));
  }

  /** What the other threads do before a cycle. */
  method Gather(engine: TradingEngine, server: FeedServer, r: Round,
                ghost m: Machine, ghost sofar: seq<Event>, ghost done: seq<Command>)
    returns (ghost events: seq<Event>)
    requires engine.Valid() && server.store == engine.store && engine.cmds == []
    requires Trace(m, sofar) == At(engine, server, done)
    modifies server, engine.store, engine.stocks, engine`cmds
    ensures engine.Valid() && engine.cmds == r.posts && engine.Repr() == old(engine.Repr())
    ensures Trace(m, events) == At(engine, server, done)
    ensures var served := MessagesServed(old(server.State()), r.messages, engine.store.historyCap);
      var polled := PassesRun(old(engine.stocks.State()), r.passes, engine.stocks.historyCap);
      && engine.State() == WithRequests(old(engine.State()), served.store)
      && engine.Aside() == (served.store.(requested := [], historyRequests := []), polled.(watched := []))
      && server.replies == served.replies
    ensures engine.CatalogNow() == old(engine.CatalogNow())
  {
    hide Trace;
    hide At;
    hide MessagesServed;
    events := PostAll(engine, server, r.posts, m, sofar, done);
    events := ReceiveAll(engine, server, r.messages, m, events, done);
    PollAll(engine, server, r.passes, done);
  }

  method ReceiveAll(engine: TradingEngine, server: FeedServer, messages: seq<Message>,
                    ghost m: Machine, ghost sofar: seq<Event>, ghost done: seq<Command>)
    returns (ghost events: seq<Event>)
    requires engine.Valid() && server.store == engine.store && Trace(m, sofar) == At(engine, server, done)
    modifies server, engine.store
    ensures engine.Valid() && Trace(m, events) == At(engine, server, done)
    ensures server.State() == MessagesServed(old(server.State()), messages, engine.store.historyCap)
    ensures engine.State() == WithRequests(old(engine.State()), engine.store.State())
  {
    hide Trace;
    hide At;
    hide MessageServed;
    events := sofar;
    for i := 0 to |messages|
      invariant engine.Valid() && Trace(m, events) == At(engine, server, done)
      invariant server.State() == MessagesServed(old(server.State()), messages[..i], engine.store.historyCap)
      invariant engine.State() == WithRequests(old(engine.State()), engine.store.State())
    {
      assert messages[..i + 1][..i] == messages[..i];
      events := Receive(engine, server, messages[i], m, events, done);
    }
    assert messages[..|messages|] == messages;
  }

  /** Stock polls change what the next cycle will copy, and nothing the machine sees. */
  method PollAll(engine: TradingEngine, server: FeedServer, passes: seq<Polling.Pass>, ghost done: seq<Command>)
    requires engine.Valid()
    modifies engine.stocks
    ensures engine.Valid() && At(engine, server, done) == old(At(engine, server, done))
    ensures engine.stocks.State() == PassesRun(old(engine.stocks.State()), passes, engine.stocks.historyCap)
    ensures engine.State() == old(engine.State())
  {
    hide OrderManager.State;
    hide PassesRun;
    ghost var before := engine.stocks.State();
    NoPasses(before, engine.stocks.historyCap);
    for i := 0 to |passes|
      invariant engine.Valid()
      invariant engine.stocks.State() == PassesRun(before, passes[..i], engine.stocks.historyCap)
    {
      OneMorePass(before, passes, i, engine.stocks.historyCap);
      Polling.PassKeepsSchedule(engine.stocks.State(), passes[i], engine.stocks.historyCap);
      hide Polling.AfterPass;
      engine.stocks.RunOnce(passes[i]);
    }
    assert passes[..|passes|] == passes;
    engine.DeskUntouched();
  }

  lemma NoPasses(st: Polling.FeedState, cap: nat)
    ensures PassesRun(st, [], cap) == st
  {
  }

  lemma OneMorePass(st: Polling.FeedState, passes: seq<Polling.Pass>, i: nat, cap: nat)
    requires i < |passes|
    ensures PassesRun(st, passes[..i + 1], cap) == Polling.AfterPass(PassesRun(st, passes[..i], cap), passes[i], cap)
  {
    assert passes[..i + 1][..i] == passes[..i];
  }

  lemma AtIs(engine: TradingEngine, server: FeedServer, done: seq<Command>, m: Machine)
    requires m == Machine(engine.State(), engine.cmds, [], done, SymbolsIn(server.replies), HistoryIn(server.replies))
    ensures m == At(engine, server, done)
  {
  }

  /** The loop. */
  method RunRounds(engine: TradingEngine, server: FeedServer, rounds: seq<Round>, ghost m: Machine)
    returns (ghost history: seq<Event>)
    requires engine.Valid() && server.store == engine.store && server !in engine.Repr() && engine.cmds == []
    requires Trace(m, []) == At(engine, server, [])
    modifies engine.Repr(), server
    ensures engine.Valid() && engine.cmds == []
    ensures Trace(m, history) == At(engine, server, PostsOf(rounds))
    ensures rounds != [] ==> engine.view == Published(engine.State())
  {
    hide Trace;
    hide Published;
    hide At;
    hide Observed;
    hide MessagesServed;
    hide PassesRun;
    hide ProcessedAll;
    hide OrderManager.State;
    history := [];
    for i := 0 to |rounds|
      invariant engine.Valid() && fresh(engine.Repr() - old(engine.Repr())) && server !in engine.Repr()
      invariant engine.cmds == [] && Trace(m, history) == At(engine, server, PostsOf(rounds[..i]))
      invariant i > 0 ==> engine.view == Published(engine.State())
    {
      assert rounds[..i + 1][..i] == rounds[..i];
      history := RunRound(engine, server, rounds[i], m, history, PostsOf(rounds[..i]));
    }
    assert rounds[..|rounds|] == rounds;
  }

  /**
   Boots the terminal and runs its loop: what it is after any rounds is a reachable machine state
   with every posted command processed, and the account it shows last adds up.
   */
  method RunSession(symbols: seq<string>, capital: real, limits: RiskLimits, historyCap: nat, decode: Decoder,
                    start: int, rounds: seq<Round>)
    returns (engine: TradingEngine, server: FeedServer, ghost history: seq<Event>)
    requires Distinct(symbols)
    ensures engine.Valid() && server.store == engine.store && engine.cmds == []
    ensures Trace(Booted(symbols, capital, limits), history) == At(engine, server, PostsOf(rounds))
    ensures rounds != [] ==> engine.view == Published(engine.State())
    ensures rounds != [] ==>
      && engine.view.totalPnl == engine.view.realized + engine.view.unrealized
      && engine.view.totalPnl == engine.view.equity - capital
      && (capital >= 0.0 ==> engine.view.cash >= 0.0)
    ensures rounds != [] ==> ShowsAccount(engine.view, engine.State(), capital)
    ensures rounds != [] ==> (engine.view.riskKilled <==> KillAmong(PostsOf(rounds)))
    ensures SymbolsIn(server.replies) + engine.store.requested
         == AddedByCommand(Booted(symbols, capital, limits), history)
    ensures Distinct(SymbolsIn(server.replies) + engine.store.requested)
    ensures Distinct(HistoryIn(server.replies) + engine.store.historyRequests)
  {
    hide Trace;
    hide Published;
    hide At;
    hide Distinct;
    hide AddedByCommand;
    hide OrderManager.State;
    hide ShowsAccount;
    hide KillAmong;
    engine, server := Boot(symbols, capital, limits, historyCap, decode, start);
    history := RunRounds(engine, server, rounds, Booted(symbols, capital, limits));
    SessionLaws(symbols, capital, limits, history);
    AtParts(engine, server, PostsOf(rounds));
  }

  method Boot(symbols: seq<string>, capital: real, limits: RiskLimits, historyCap: nat, decode: Decoder, start: int)
    returns (engine: TradingEngine, server: FeedServer)
    ensures engine.Valid() && fresh(engine.Repr()) && fresh(server) && server !in engine.Repr()
    ensures server.store == engine.store && engine.cmds == []
    ensures Trace(Booted(symbols, capital, limits), []) == At(engine, server, [])
  {
    engine := new TradingEngine(symbols, capital, limits, historyCap, start);
    server := new FeedServer(engine.store, decode);
  }

  /** What every reachable machine state publishes and has requested. */
  lemma SessionLaws(symbols: seq<string>, capital: real, limits: RiskLimits, events: seq<Event>)
    requires Distinct(symbols)
    ensures var m := Trace(Booted(symbols, capital, limits), events);
      var v := Published(m.engine);
      && ShowsAccount(v, m.engine, capital)
      && (v.riskKilled <==> KillAmong(m.done))
      && v.totalPnl == v.realized + v.unrealized
      && v.totalPnl == v.equity - capital
      && (capital >= 0.0 ==> v.cash >= 0.0)
      && m.handed + m.engine.requested == AddedByCommand(Booted(symbols, capital, limits), events)
      && Distinct(m.handed + m.engine.requested)
      && Distinct(m.handedHistory + m.engine.historyRequests)
  {
    hide Trace;
    hide ShowsAccount;
    hide KillAmong;
    PublishedFieldByField(symbols, capital, limits, events);
    PublishedPnlAddsUp(symbols, capital, limits, events);
    ReachableDesk(symbols, capital, limits, events);
    SymbolsRequestedOnce(symbols, capital, limits, events);
    HistoryRequestedOnce(symbols, capital, limits, events);
    hide AddedByCommand;
    hide Booted;
  }
}
