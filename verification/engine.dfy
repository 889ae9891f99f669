/**
 The trading engine that owns the desk: every method performs steps of the machine in module
 Terminal, and one cycle of the loop is a run of them.
 */
module Engine {
  import opened Types
  import opened Accounting
  import opened Risk
  import opened Matching
  import opened PortfolioBook
  import opened Oms
  import opened MarketStores
  import opened StockFeeds
  import opened Terminal
  import Desk
  import Polling
  import Store

  const CATALOG_EVERY: int := 2_000_000_000

  /** What the loop remembers of the feed's catalog, and when it reads it next. */
  datatype Catalog = Catalog(products: seq<string>, universeSeen: bool, next: int) {

    /** It is read every cycle until both parts have landed, then on a slow cadence. */
    predicate Due(now: int) {
      now >= next || products == [] || !universeSeen
    }

    function After(st: Store.StoreState, now: int): Catalog {
      if !Due(now) then this
      else Catalog(st.products, universeSeen || st.universe != [], now + CATALOG_EVERY)
    }
  }

  /** Once both parts have landed, a read at `now` is followed by none for two seconds, and then by one. */
  lemma CatalogReadsAreSpaced(c: Catalog, st: Store.StoreState, now: int, later: int)
    requires c.Due(now) && st.products != [] && (c.universeSeen || st.universe != [])
    ensures c.After(st, now).Due(later) <==> later >= now + 2_000_000_000
  {
  }

  /** Until then every cycle reads it, and a read takes over what the store has. */
  lemma CatalogIsReadUntilItLands(c: Catalog, st: Store.StoreState, now: int)
    ensures c.products == [] || !c.universeSeen || now >= c.next ==>
      c.Due(now) && c.After(st, now).products == st.products
      && (c.After(st, now).universeSeen <==> c.universeSeen || st.universe != [])
    ensures c.products != [] && c.universeSeen && now < c.next ==> c.After(st, now) == c
  {
  }

  class TradingEngine {
    const store: MarketStore
    const stocks: StockFeed
    const pf: Portfolio
    const risk: RiskManager
    const matcher: PaperMatchingEngine
    const oms: OrderManager
    var symbols: seq<string>
    var stockSymbols: seq<string>
    var focus: string
    var histRequested: set<string>
    var quotes: map<string, Quote>
    var cmds: seq<Command>
    var products: seq<string>
    var universeSeen: bool
    var nextCatalog: int
    var view: AccountView

    ghost function Repr(): set<object>
      reads pf`positions
    {
      {this, store, stocks, oms, risk, matcher} + pf.Repr()
    }

    ghost predicate Valid()
      reads pf`positions, stocks`symbols, this`stockSymbols
    {
      && oms.portfolio == pf && oms.risk == risk && oms.matcher == matcher && oms.Valid()
      && stocks.symbols == stockSymbols
    }

    ghost function DeskNow(): Desk.DeskState
      reads oms, oms.risk, oms.matcher, oms.portfolio, oms.portfolio.Objects()
    {
      oms.State()
    }

    ghost function State(): EngineState
      reads this`quotes, this`symbols, this`stockSymbols, this`focus, this`histRequested, store
      reads oms, oms.risk, oms.matcher, oms.portfolio, oms.portfolio.Objects()
    {
      EngineState(DeskNow(), quotes, symbols, stockSymbols, focus, histRequested,
                  store.requested, store.historyRequests)
    }

    /** Writing fields of the engine or of its stores leaves the desk as it was. */
    twostate lemma DeskUntouched()
      requires Valid()
      requires unchanged(oms) && unchanged(risk) && unchanged(matcher) && unchanged(pf)
      requires forall s | s in pf.positions :: old(allocated(pf.positions[s])) && unchanged(pf.positions[s])
      ensures DeskNow() == old(DeskNow())
    {
    }

    /** What the engine leaves alone: the store but for its request queues, the poller but for its watch list. */
    ghost function Aside(): (Store.StoreState, Polling.FeedState)
      reads store, stocks
    {
      (store.State().(requested := [], historyRequests := []), stocks.State().(watched := []))
    }

    /** An order manager over a freshly funded account. */
    static method OpenDesk(capital: real, limits: RiskLimits)
      returns (pf: Portfolio, risk: RiskManager, matcher: PaperMatchingEngine, oms: OrderManager)
      ensures fresh(pf) && fresh(risk) && fresh(matcher) && fresh(oms)
      ensures oms.portfolio == pf && oms.risk == risk && oms.matcher == matcher
      ensures pf.Objects() == {} && oms.Valid()
      ensures oms.State() == Desk.Opened(capital, limits)
    {
      pf := new Portfolio();
      pf.Fund(capital);
      risk := new RiskManager(limits);
      matcher := new PaperMatchingEngine();
      oms := new OrderManager(risk, matcher, pf);
    }

    /** Wires the components together and funds the account, as the loop does before its first cycle. */
    constructor (symbols: seq<string>, capital: real, limits: RiskLimits, historyCap: nat, now: int)
      ensures Valid() && fresh(Repr())
      ensures State() == Started(symbols, capital, limits) && cmds == []
      ensures store.State() == Store.EMPTY && store.historyCap == historyCap
    {
      store := new MarketStore(historyCap);
      stocks := new StockFeed(historyCap, now);
      var account, gate, venue, manager := OpenDesk(capital, limits);
      pf, risk, matcher, oms := account, gate, venue, manager;
      this.symbols := symbols;
      focus := if symbols == [] then "" else symbols[0];
      stockSymbols, histRequested, quotes, cmds := [], {}, map[], [];
      products, universeSeen, nextCatalog := [], false, 0;
      view := AccountView(false, 0.0, 0.0, 0.0, 0.0, 0.0, 0.0);
    }

    /** Called from the interface thread, under the queue's mutex. */
    method PostCommand(c: Command)
      modifies this`cmds
      ensures cmds == old(cmds) + [c]
    {
      cmds := cmds + [c];
    }

    method Process(c: Command)
      requires Valid()
      modifies Repr() - {this}, this`symbols, this`stockSymbols, this`focus
      ensures Valid() && fresh(Repr() - old(Repr()))
      ensures State() == Processed(old(State()), c)
      ensures Aside() == old(Aside())
    {
      hide OrderManager.State;
      hide Desk.Step;
      hide WithSymbol;
      hide OrderQty;
      if c.kind == AddSymbol {
        WatchSymbol(c);
        return;
      }
      if c.kind == SetFocus {
        if c.symbol != "" && c.symbol != focus {
          focus := c.symbol;
        }
        return;
      }
      Trade(c);
    }

    method WatchSymbol(c: Command)
      requires Valid()
      modifies store, stocks, this`symbols, this`stockSymbols, this`focus
      ensures Valid()
      ensures State() == WithSymbol(old(State()), c)
      ensures Aside() == old(Aside())
    {
      hide OrderManager.State;
      if c.symbol == "" {
        return;
      }
      if c.assetClass == Stock {
        if c.symbol !in stockSymbols {
          stockSymbols := stockSymbols + [c.symbol];
          stocks.WatchSymbol(c.symbol);
          focus := c.symbol;
          DeskUntouched();
        }
      } else if c.symbol !in symbols {
        WatchCrypto(c.symbol);
      }
    }

    method WatchCrypto(symbol: string)
      requires Valid()
      modifies store, this`symbols, this`focus
      ensures Valid()
      ensures State() == old(State()).(symbols := old(symbols) + [symbol], focus := symbol,
                                       requested := Store.Enqueued(old(store.requested), symbol))
      ensures Aside() == old(Aside())
    {
      hide OrderManager.State;
      symbols := symbols + [symbol];
      store.AddSymbol(symbol);
      focus := symbol;
      DeskUntouched();
    }

    /** Kill, flatten, buy or sell against the cached quote. */
    method Trade(c: Command)
      requires Valid() && c.kind != AddSymbol && c.kind != SetFocus
      modifies oms.Repr()
      ensures Valid() && fresh(Repr() - old(Repr()))
      ensures State() == Processed(old(State()), c)
      ensures Aside() == old(Aside())
    {
      hide Desk.Flatten;
      hide Desk.Kill;
      hide Desk.Submit;
      hide OrderQty;
      hide WithSymbol;
      hide Aside;
      hide OrderManager.State;
      if c.kind == KillAll {
        Halt();
        return;
      }
      if c.symbol !in quotes {
        return;
      }
      if c.kind == FlattenOrder {
        FlattenAt(c.symbol, quotes[c.symbol]);
        return;
      }
      PlaceOrder(c, quotes[c.symbol]);
    }

    method Halt()
      requires Valid()
      modifies risk
      ensures Valid() && State() == old(State()).(desk := Desk.Kill(old(State()).desk, KILL_REASON))
      ensures Aside() == old(Aside())
    {
      risk.Kill(KILL_REASON);
    }

    method FlattenAt(symbol: string, q: Quote)
      requires Valid()
      modifies oms.Repr()
      ensures Valid() && fresh(Repr() - old(Repr()))
      ensures State() == old(State()).(desk := Desk.Flatten(old(State()).desk, symbol, q))
      ensures Aside() == old(Aside())
    {
      hide Desk.Flatten;
      hide Desk.Decide;
      hide OrderManager.State;
      var id := oms.Flatten(symbol, q);
    }

    /** A market order for the asked quantity, or for what the asked notional buys at the touch. */
    method PlaceOrder(c: Command, q: Quote)
      requires Valid() && (c.kind == BuyOrder || c.kind == SellOrder)
      requires c.symbol in quotes && q == quotes[c.symbol]
      modifies oms.Repr()
      ensures Valid() && fresh(Repr() - old(Repr()))
      ensures State() == Processed(old(State()), c)
      ensures Aside() == old(Aside())
    {
      hide OrderManager.State;
      hide Desk.Submit;
      hide Processed;
      hide Aside;
      var side := if c.kind == BuyOrder then Buy else Sell;
      var ref := q.Touch(side);
      var qty := if c.useNotional then (if ref > 0.0 then c.amount / ref else 0.0) else c.amount;
      OrderProcessed(State(), c, q, side, qty);
      if !(qty > 0.0) {
        return;
      }
      SubmitAt(Signal(c.symbol, side, qty, Market, 0.0, "manual", q.ts), q);
    }

    method SubmitAt(sig: Signal, q: Quote)
      requires Valid()
      modifies oms.Repr()
      ensures Valid() && fresh(Repr() - old(Repr()))
      ensures State() == old(State()).(desk := Desk.Submit(old(State()).desk, sig, q))
      ensures Aside() == old(Aside())
    {
      hide Desk.Submit;
      hide Desk.Decide;
      hide OrderManager.State;
      var id := oms.Submit(sig, q);
    }

    static lemma OrderProcessed(e: EngineState, c: Command, q: Quote, side: Side, qty: real)
      requires (c.kind == BuyOrder && side == Buy) || (c.kind == SellOrder && side == Sell)
      requires c.symbol in e.quotes && q == e.quotes[c.symbol]
      requires var ref := q.Touch(side);
        qty == if c.useNotional then (if ref > 0.0 then c.amount / ref else 0.0) else c.amount
      ensures Processed(e, c) ==
        if qty > 0.0
        then e.(desk := Desk.Submit(e.desk, Signal(c.symbol, side, qty, Market, 0.0, "manual", q.ts), q))
        else e
    {
      hide Desk.Submit;
      assert qty == OrderQty(c, q, side);
      hide OrderQty;
    }

    /** Swaps the queue out and processes what was in it, in order. */
    method DrainCommands(ghost m: Machine) returns (ghost events: seq<Event>)
      requires Valid() && m.engine == State() && m.queue == cmds && m.pending == []
      modifies Repr() - {this}, this`symbols, this`stockSymbols, this`focus, this`cmds
      ensures Valid() && fresh(Repr() - old(Repr()))
      ensures State() == ProcessedAll(old(State()), old(cmds))
      ensures Aside() == old(Aside())
      ensures OneSwapFirst(events)
      ensures cmds == [] && Terminal.Trace(m, events)
        == m.(engine := State(), queue := [], done := m.done + m.queue)
    {
      hide OrderManager.State;
      hide Processed;
      hide Terminal.Trace;
      hide OneSwapFirst;
      hide Aside;
      ghost var before, aside := State(), Aside();
      var pending := cmds;
      events := DrainEvents(|pending|);
      TraceDrained(m, |pending|);
      TakeQueue();
      for i := 0 to |pending|
        invariant Valid() && fresh(Repr() - old(Repr())) && cmds == []
        invariant State() == ProcessedAll(before, pending[..i]) && Aside() == aside
      {
        assert pending[..i + 1][..i] == pending[..i];
        Process(pending[i]);
      }
      assert pending[..|pending|] == pending;
    }

    method TakeQueue()
      requires Valid()
      modifies this`cmds
      ensures Valid() && cmds == [] && State() == old(State()) && Aside() == old(Aside())
    {
      hide OrderManager.State;
      cmds := [];
      DeskUntouched();
    }

    /** The queue swapped out, then so many commands processed. */
    static function DrainEvents(n: nat): seq<Event> {
      [Swap] + seq(n, i => ProcessNext)
    }

    /** The queue is swapped out at once and nothing is posted. */
    static ghost predicate OneSwapFirst(events: seq<Event>) {
      && events != [] && events[0] == Swap
      && (forall i | 0 < i < |events| :: !events[i].Swap? && !events[i].Post?)
    }

    static lemma {:induction false} TraceDrained(m: Machine, n: nat)
      requires m.pending == [] && n <= |m.queue|
      ensures OneSwapFirst(DrainEvents(n))
      ensures Terminal.Trace(m, DrainEvents(n))
           == m.(engine := ProcessedAll(m.engine, m.queue[..n]), queue := [], pending := m.queue[n..],
                 done := m.done + m.queue[..n])
    {
      hide Processed;
      if n == 0 {
        TraceNext(m, [], Swap);
        assert DrainEvents(0) == [] + [Swap];
        assert m.queue[..0] == [] && m.queue[0..] == m.queue && m.done + [] == m.done;
      } else {
        hide Terminal.Trace;
        TraceDrained(m, n - 1);
        TraceNext(m, DrainEvents(n - 1), ProcessNext);
        assert DrainEvents(n) == DrainEvents(n - 1) + [ProcessNext];
        assert m.queue[..n][..n - 1] == m.queue[..n - 1];
        assert m.done + m.queue[..n] == m.done + m.queue[..n - 1] + [m.queue[n - 1]];
      }
    }

    method CacheQuote(symbol: string, q: Quote)
      requires Valid()
      modifies this`quotes
      ensures Valid() && State() == Quoted(old(State()), symbol, q)
    {
      hide OrderManager.State;
      quotes := quotes[symbol := q];
      DeskUntouched();
    }

    /** Copies both live caches over the engine's quotes. */
    method RefreshQuotes(ghost m: Machine, ghost sofar: seq<Event>) returns (ghost events: seq<Event>)
      requires Valid() && Terminal.Trace(m, sofar).engine == State() && OneSwapFirst(sofar)
      modifies this`quotes
      ensures Valid()
      ensures State() == old(State()).(quotes := old(quotes) + Store.LastOf(store.State(), symbols) + stocks.quotes)
      ensures OneSwapFirst(events)
      ensures Terminal.Trace(m, events) == Terminal.Trace(m, sofar).(engine := State())
    {
      hide Terminal.Trace;
      hide OneSwapFirst;
      hide OrderManager.State;
      events := CopyCrypto(m, sofar);
      events := CopyStocks(m, events);
    }

    method CopyCrypto(ghost m: Machine, ghost sofar: seq<Event>) returns (ghost events: seq<Event>)
      requires Valid() && Terminal.Trace(m, sofar).engine == State() && OneSwapFirst(sofar)
      modifies this`quotes
      ensures Valid()
      ensures State() == old(State()).(quotes := old(quotes) + Store.LastOf(store.State(), symbols))
      ensures OneSwapFirst(events)
      ensures Terminal.Trace(m, events) == Terminal.Trace(m, sofar).(engine := State())
    {
      hide Terminal.Trace;
      hide OrderManager.State;
      hide Processed;
      ghost var base, e := Terminal.Trace(m, sofar), State();
      events := sofar;
      var crypto := store.TakeSnapshot(symbols);
      DeskUntouched();
      for i := 0 to |crypto|
        invariant Valid() && OneSwapFirst(events)
        invariant State() == e.(quotes := Store.Overlaid(e.quotes, crypto[..i]))
        invariant Terminal.Trace(m, events) == base.(engine := State())
      {
        assert crypto[..i + 1][..i] == crypto[..i];
        var q := crypto[i];
        TraceQuote(m, events, base, State(), q.symbol, q);
        CacheQuote(q.symbol, q);
        events := events + [QuoteArrives(q.symbol, q)];
      }
      assert crypto[..|crypto|] == crypto;
      Store.SnapshotOverlays(e.quotes, store.State(), symbols);
    }

    method CopyStocks(ghost m: Machine, ghost sofar: seq<Event>) returns (ghost events: seq<Event>)
      requires Valid() && Terminal.Trace(m, sofar).engine == State() && OneSwapFirst(sofar)
      modifies this`quotes
      ensures Valid()
      ensures State() == old(State()).(quotes := old(quotes) + stocks.quotes)
      ensures OneSwapFirst(events)
      ensures Terminal.Trace(m, events) == Terminal.Trace(m, sofar).(engine := State())
    {
      hide Terminal.Trace;
      hide OrderManager.State;
      hide Processed;
      ghost var base, e := Terminal.Trace(m, sofar), State();
      events := sofar;
      var live := stocks.quotes;
      var rest := live.Keys;
      assert e.quotes + (live - rest) == e.quotes;
      while rest != {}
        invariant Valid() && rest <= live.Keys && OneSwapFirst(events)
        invariant State() == e.(quotes := e.quotes + (live - rest))
        invariant Terminal.Trace(m, events) == base.(engine := State())
      {
        var s :| s in rest;
        OverlaidOneMore(e.quotes, live, rest, s);
        rest := rest - {s};
        TraceQuote(m, events, base, State(), s, live[s]);
        CacheQuote(s, live[s]);
        events := events + [QuoteArrives(s, live[s])];
      }
      assert live - rest == live;
    }

    static lemma OverlaidOneMore(base: map<string, Quote>, live: map<string, Quote>, rest: set<string>, s: string)
      requires s in rest && rest <= live.Keys
      ensures base + (live - (rest - {s})) == (base + (live - rest))[s := live[s]]
    {
    }

    static lemma TraceQuote(m: Machine, events: seq<Event>, base: Machine, e: EngineState, symbol: string, q: Quote)
      requires Terminal.Trace(m, events) == base.(engine := e)
      ensures Terminal.Trace(m, events + [QuoteArrives(symbol, q)]) == base.(engine := Quoted(e, symbol, q))
    {
      hide Next;
      hide Terminal.Trace;
      TraceNext(m, events, QuoteArrives(symbol, q));
      QuoteStep(Terminal.Trace(m, events), symbol, q);
    }

    static lemma QuoteStep(m: Machine, symbol: string, q: Quote)
      ensures Next(m, QuoteArrives(symbol, q)) == m.(engine := Quoted(m.engine, symbol, q))
    {
    }

    /** Requests candles the first time a crypto symbol is charted. */
    method ChartFocusOnce()
      requires Valid()
      modifies store, this`histRequested
      ensures Valid() && State() == Charted(old(State()))
      ensures Aside() == old(Aside())
    {
      hide OrderManager.State;
      if focus != "" && focus !in stockSymbols {
        if focus !in histRequested {
          histRequested := histRequested + {focus};
          store.RequestHistory(focus);
        }
      }
      DeskUntouched();
    }

    method JoinSymbol(symbol: string)
      requires Valid()
      modifies this`symbols
      ensures Valid()
      ensures State() == old(State()).(symbols := if symbol in old(symbols) then old(symbols)
                                                  else old(symbols) + [symbol])
    {
      hide OrderManager.State;
      if symbol !in symbols {
        symbols := symbols + [symbol];
      }
      DeskUntouched();
    }

    /** Adds whatever the feed streams to the watch list, and charts something if nothing is. */
    method MergeUniverseSymbols(universe: seq<string>)
      requires Valid()
      modifies this`symbols, this`focus
      ensures Valid() && State() == Merged(old(State()), universe)
    {
      ghost var before := State();
      for i := 0 to |universe|
        invariant Valid()
        invariant State() == before.(symbols := Joined(before.symbols, universe[..i]))
      {
        assert universe[..i + 1][..i] == universe[..i];
        JoinSymbol(universe[i]);
      }
      assert universe[..|universe|] == universe;
      if focus == "" && symbols != [] {
        focus := symbols[0];
      }
    }

    function CatalogNow(): Catalog
      reads this`products, this`universeSeen, this`nextCatalog
    {
      Catalog(products, universeSeen, nextCatalog)
    }

    /** Takes catalog and universe over from the store when they are due. */
    method MergeCatalog(now: int) returns (merged: bool)
      requires Valid()
      modifies this`products, this`universeSeen, this`symbols, this`focus, this`nextCatalog
      ensures Valid()
      ensures merged == old(CatalogNow().Due(now))
      ensures State() == if merged then Merged(old(State()), store.universe) else old(State())
      ensures CatalogNow() == old(CatalogNow()).After(store.State(), now)
    {
      hide OrderManager.State;
      hide Merged;
      merged := now >= nextCatalog || products == [] || !universeSeen;
      if merged {
        MergeUniverseSymbols(store.universe);
        NoteCatalog(now);
      }
    }

    method NoteCatalog(now: int)
      requires Valid()
      modifies this`products, this`universeSeen, this`nextCatalog
      ensures Valid() && State() == old(State())
      ensures CatalogNow() == Catalog(store.products, old(universeSeen) || store.universe != [], now + CATALOG_EVERY)
    {
      hide OrderManager.State;
      products := store.products;
      if store.universe != [] {
        universeSeen := true;
      }
      nextCatalog := now + CATALOG_EVERY;
      DeskUntouched();
    }

    lemma AccountIsTheDesks()
      requires Valid()
      ensures DeskNow().account == pf.State() && DeskNow().risk == risk.State()
    {
    }

    /** The account with every quoted symbol marked at its mid. */
    method AccountNow() returns (v: AccountView)
      requires Valid()
      ensures v == Published(State()) && State() == old(State())
    {
      hide Equity;
      hide Realized;
      hide Unrealized;
      hide TotalPnl;
      hide OrderManager.State;
      ghost var e, account := State(), pf.State();
      AccountIsTheDesks();
      var marks := MarksOf(quotes);
      var equity := pf.EquityAt(marks);
      assert pf.State() == account;
      var realized := pf.RealizedPnl();
      assert pf.State() == account;
      var unrealized := pf.UnrealizedPnl(marks);
      assert pf.State() == account;
      var total := pf.TotalPnlAt(marks);
      DeskUntouched();
      AccountIsTheDesks();
      v := AccountView(risk.killed, pf.initialCapital, pf.cash, equity, realized, unrealized, total);
    }

    /** Publishes the account. */
    method Publish()
      requires Valid()
      modifies this`view
      ensures Valid() && State() == old(State()) && view == Published(State())
      ensures Aside() == old(Aside())
    {
      hide OrderManager.State;
      hide Published;
      view := AccountNow();
      DeskUntouched();
    }

    /** What a cycle does after its commands: refreshes quotes, charts, and merges the catalog if due. */
    method Observe(now: int, ghost m: Machine, ghost sofar: seq<Event>) returns (ghost events: seq<Event>)
      requires Valid() && Terminal.Trace(m, sofar).engine == State() && OneSwapFirst(sofar)
      modifies store, this`quotes, this`histRequested, this`symbols, this`focus
      modifies this`products, this`universeSeen, this`nextCatalog
      ensures Valid()
      ensures State() == Observed(old(State()), Aside().0, Aside().1.quotes, old(CatalogNow().Due(now)))
      ensures CatalogNow() == old(CatalogNow()).After(Aside().0, now)
      ensures Aside() == old(Aside())
      ensures OneSwapFirst(events)
      ensures Terminal.Trace(m, events) == Terminal.Trace(m, sofar).(engine := State())
    {
      hide OrderManager.State;
      hide Next;
      hide Terminal.Trace;
      hide Charted;
      hide Merged;
      hide OneSwapFirst;
      events := RefreshQuotes(m, sofar);
      ChartStep(Terminal.Trace(m, events));
      TraceNext(m, events, ChartFocus);
      StillOneSwap(events, ChartFocus);
      ChartFocusOnce();
      events := events + [ChartFocus];
      MergeStep(Terminal.Trace(m, events), store.universe);
      TraceNext(m, events, MergeUniverse(store.universe));
      StillOneSwap(events, MergeUniverse(store.universe));
      var merged := MergeCatalog(now);
      if merged {
        events := events + [MergeUniverse(store.universe)];
      }
      SameQuotesFromAside(old(symbols));
    }

    /** One cycle of the loop is a run of the machine, and publishes the state it ends in. */
    method Cycle(now: int, ghost m: Machine) returns (ghost events: seq<Event>)
      requires Valid() && m.engine == State() && m.queue == cmds && m.pending == []
      modifies Repr()
      ensures Valid() && fresh(Repr() - old(Repr()))
      ensures State() == Observed(ProcessedAll(old(State()), old(cmds)), Aside().0, Aside().1.quotes,
                                  old(CatalogNow().Due(now)))
      ensures CatalogNow() == old(CatalogNow()).After(Aside().0, now)
      ensures Aside() == old(Aside())
      ensures OneSwapFirst(events)
      ensures Terminal.Trace(m, events) == m.(engine := State(), queue := [], done := m.done + m.queue)
      ensures cmds == [] && view == Published(State())
    {
      hide OrderManager.State;
      hide Terminal.Trace;
      hide Published;
      hide ProcessedAll;
      hide OneSwapFirst;
      hide Observed;
      hide Aside;
      hide Catalog.After;
      events := DrainCommands(m);
      events := Observe(now, m, events);
      Publish();
    }

    static lemma StillOneSwap(events: seq<Event>, ev: Event)
      requires OneSwapFirst(events) && !ev.Swap? && !ev.Post?
      ensures OneSwapFirst(events + [ev])
    {
    }

    lemma SameQuotesFromAside(watched: seq<string>)
      ensures Store.LastOf(Aside().0, watched) == Store.LastOf(store.State(), watched)
    {
    }

    static lemma ChartStep(m: Machine)
      ensures Next(m, ChartFocus) == m.(engine := Charted(m.engine))
    {
    }

    static lemma MergeStep(m: Machine, universe: seq<string>)
      ensures Next(m, MergeUniverse(universe)) == m.(engine := Merged(m.engine, universe))
    {
    }
  }
}
