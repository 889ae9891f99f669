/** What holds in every state the terminal can reach, under every interleaving of its events. */
module TerminalLaws {
  import opened Types
  import opened Accounting
  import opened Journal
  import opened Risk
  import opened Desk
  import opened DeskLaws
  import opened Terminal

  // ---------- commands: exactly once, in post order ----------

  function Posted(events: seq<Event>): seq<Command> {
    if events == [] then []
    else
      var ev := events[|events| - 1];
      Posted(events[..|events| - 1]) + if ev.Post? then [ev.c] else []
  }

  /** What was posted is what was processed, then what is swapped out, then what still waits. */
  lemma {:induction false} CommandsProcessedOnceInOrder(m: Machine, events: seq<Event>)
    requires m.queue == m.pending == m.done == []
    ensures var m' := Trace(m, events); m'.done + m'.pending + m'.queue == Posted(events)
  {
    if events != [] {
      hide Next;
      CommandsProcessedOnceInOrder(m, events[..|events| - 1]);
      NextKeepsCommands(Trace(m, events[..|events| - 1]), events[|events| - 1]);
    }
  }

  lemma NextKeepsCommands(m: Machine, ev: Event)
    ensures var m' := Next(m, ev);
      m'.done + m'.pending + m'.queue == m.done + m.pending + m.queue + if ev.Post? then [ev.c] else []
  {
    hide Processed;
    hide Charted;
    hide Merged;
    var all := m.done + m.pending + m.queue;
    assert all + [] == all;
    match ev
    case Post(c) => assert m.done + m.pending + (m.queue + [c]) == all + [c];
    case Swap =>
      if m.pending == [] {
        assert m.done + m.queue + [] == all;
      }
    case ProcessNext =>
      if m.pending != [] {
        assert m.done + [m.pending[0]] + m.pending[1..] == m.done + m.pending;
      }
    case _ =>
  }

  // ---------- a post inside a cycle only waits ----------

  function WithoutPosts(events: seq<Event>): seq<Event> {
    if events == [] then []
    else WithoutPosts(events[..|events| - 1])
         + if events[|events| - 1].Post? then [] else [events[|events| - 1]]
  }

  ghost predicate NeverSwaps(events: seq<Event>) {
    forall i | 0 <= i < |events| :: !events[i].Swap?
  }

  lemma StepIgnoresTheQueue(m: Machine, ev: Event, queue: seq<Command>)
    requires !ev.Post? && !ev.Swap?
    ensures Next(m.(queue := queue), ev) == Next(m, ev).(queue := queue)
  {
    hide Processed;
    hide Merged;
    hide Charted;
  }

  /** Between two swaps posts change nothing but the queue, wherever they fall. */
  lemma {:induction false} PostsOnlyWait(m: Machine, events: seq<Event>)
    requires NeverSwaps(events)
    ensures Trace(m, events) == Trace(m, WithoutPosts(events)).(queue := m.queue + Posted(events))
  {
    if events != [] {
      var earlier, ev := events[..|events| - 1], events[|events| - 1];
      PostsOnlyWait(m, earlier);
      var quiet, queue := WithoutPosts(earlier), m.queue + Posted(earlier);
      if ev.Post? {
        assert quiet + [] == quiet;
      } else {
        hide Next;
        StepIgnoresTheQueue(Trace(m, quiet), ev, queue);
        assert (quiet + [ev])[..|quiet|] == quiet;
        assert m.queue + (Posted(earlier) + []) == queue;
      }
    }
  }

  /** A cycle disturbed by posts does what it would have done, and leaves them for the next one. */
  lemma PostsDuringACycle(m: Machine, quiet: seq<Event>, disturbed: seq<Event>)
    requires NeverSwaps(disturbed) && WithoutPosts(disturbed) == quiet && m.pending == []
    ensures Trace(m, [Swap] + disturbed) == Trace(m, [Swap] + quiet).(queue := Posted(disturbed))
  {
    var swapped := Trace(m, [Swap]);
    assert swapped == Next(Trace(m, [Swap][..0]), Swap);
    TraceSplits(m, [Swap], disturbed);
    TraceSplits(m, [Swap], quiet);
    PostsOnlyWait(swapped, disturbed);
    assert [] + Posted(disturbed) == Posted(disturbed);
  }

  // ---------- the desk inside the terminal runs market orders only ----------

  /** The desk action an event performs, if any. */
  function DeskActionOf(m: Machine, ev: Event): Option<Action> {
    if ev.ProcessNext? && m.pending != [] then ActionOf(m.engine, m.pending[0]) else None
  }

  lemma NextMovesTheDesk(m: Machine, ev: Event)
    ensures match DeskActionOf(m, ev)
      case Some(a) => Next(m, ev).engine.desk == Step(m.engine.desk, a)
                      && (a.SubmitSignal? ==> a.sig.orderType == Market)
      case None => Next(m, ev).engine.desk == m.engine.desk
  {
    hide Step;
  }

  /** The desk actions a run of events performs, in order. */
  function DeskActions(m: Machine, events: seq<Event>): seq<Action> {
    if events == [] then []
    else
      var earlier := events[..|events| - 1];
      match DeskActionOf(Trace(m, earlier), events[|events| - 1])
      case Some(a) => DeskActions(m, earlier) + [a]
      case None => DeskActions(m, earlier)
  }

  /** The engine refines the desk: its account, orders and journal are those of a desk run. */
  lemma {:induction false} EngineRunsTheDesk(symbols: seq<string>, capital: real, limits: RiskLimits,
                                             events: seq<Event>)
    ensures var m := Booted(symbols, capital, limits);
      && Trace(m, events).engine.desk == Run(Opened(capital, limits), DeskActions(m, events))
      && NeverOverspends(DeskActions(m, events))
  {
    hide Step;
    hide Next;
    hide DeskActionOf;
    if events != [] {
      var m := Booted(symbols, capital, limits);
      var earlier, ev := events[..|events| - 1], events[|events| - 1];
      EngineRunsTheDesk(symbols, capital, limits, earlier);
      NextMovesTheDesk(Trace(m, earlier), ev);
      match DeskActionOf(Trace(m, earlier), ev)
      case Some(a) => RunAppend(Opened(capital, limits), DeskActions(m, earlier), a);
      case None =>
    }
  }

  /** Orders, journal, cash and positions of every reachable terminal state. */
  lemma ReachableDesk(symbols: seq<string>, capital: real, limits: RiskLimits, events: seq<Event>)
    ensures var d := Trace(Booted(symbols, capital, limits), events).engine.desk;
      && OrderBook(d) && Journalled(d, capital)
      && Outline(d.account.closed) == RoundTrips(d.fills)
      && (capital >= 0.0 ==> d.account.cash >= 0.0)
      && PositionsBounded(d)
  {
    hide OrderBook;
    hide PositionsBounded;
    var actions := DeskActions(Booted(symbols, capital, limits), events);
    EngineRunsTheDesk(symbols, capital, limits, events);
    RunsAreJournalled(capital, limits, actions);
    ClosedRecordsAreRoundTrips(capital, Trace(Booted(symbols, capital, limits), events).engine.desk.fills);
    if capital >= 0.0 {
      RunsStaySolvent(capital, limits, actions);
    }
    RunsStayWithinPositionLimits(capital, limits, actions);
  }

  // ---------- notional of the engine's own orders ----------

  ghost predicate QuotesAreNotNegative(events: seq<Event>) {
    forall i | 0 <= i < |events| ::
      events[i].QuoteArrives? ==> events[i].quote.bid >= 0.0 && events[i].quote.ask >= 0.0
  }

  ghost predicate RealQuotes(e: EngineState) {
    forall s | s in e.quotes :: e.quotes[s].bid >= 0.0 && e.quotes[s].ask >= 0.0
  }

  lemma NextMeetsRealQuotes(m: Machine, ev: Event)
    requires RealQuotes(m.engine)
    requires ev.QuoteArrives? ==> ev.quote.bid >= 0.0 && ev.quote.ask >= 0.0
    ensures RealQuotes(Next(m, ev).engine)
    ensures DeskActionOf(m, ev).Some? ==> OnQuote(DeskActionOf(m, ev).value)
  {
    hide Step;
    hide OrderQty;
  }

  lemma {:induction false} OrdersMeetRealQuotes(m: Machine, events: seq<Event>)
    requires RealQuotes(m.engine) && QuotesAreNotNegative(events)
    ensures RealQuotes(Trace(m, events).engine)
    ensures MarketOrdersOnQuotes(DeskActions(m, events))
  {
    hide Next;
    hide DeskActionOf;
    hide RealQuotes;
    if events != [] {
      OrdersMeetRealQuotes(m, events[..|events| - 1]);
      NextMeetsRealQuotes(Trace(m, events[..|events| - 1]), events[|events| - 1]);
    }
  }

  /** The desk actions of a run that filled, in order. */
  function FillingActions(symbols: seq<string>, capital: real, limits: RiskLimits, events: seq<Event>): seq<Action> {
    Fillers(Opened(capital, limits), DeskActions(Booted(symbols, capital, limits), events))
  }

  /**
   Whatever is commanded, each fill of the terminal does what one action asked, within the notional
   limit when that crosses a quoted side and within twice it always.
   */
  lemma TerminalBoundsNotional(symbols: seq<string>, capital: real, limits: RiskLimits, events: seq<Event>)
    requires QuotesAreNotNegative(events)
    ensures var fills := Trace(Booted(symbols, capital, limits), events).engine.desk.fills;
      var makers := FillingActions(symbols, capital, limits, events);
      && |makers| == |fills|
      && forall i | 0 <= i < |fills| :: FilledWithin(fills[i], makers[i], limits)
  {
    var m := Booted(symbols, capital, limits);
    EngineRunsTheDesk(symbols, capital, limits, events);
    OrdersMeetRealQuotes(m, events);
    RunsBoundNotional(capital, limits, DeskActions(m, events));
    hide Run;
    hide Trace;
    hide Fillers;
    hide FilledWithin;
  }

  // ---------- kill switch ----------

  lemma {:induction false} ProcessedKillStays(m: Machine, events: seq<Event>)
    requires forall i | 0 <= i < |m.done| && m.done[i].kind == KillAll :: m.engine.desk.risk.killed
    ensures var m' := Trace(m, events);
      && (m.engine.desk.risk.killed ==> m'.engine.desk.risk.killed)
      && forall i | 0 <= i < |m'.done| && m'.done[i].kind == KillAll :: m'.engine.desk.risk.killed
  {
    if events != [] {
      var before := Trace(m, events[..|events| - 1]);
      ProcessedKillStays(m, events[..|events| - 1]);
      if before.pending != [] {
        match ActionOf(before.engine, before.pending[0])
        case Some(a) => StepIsSubmitOrKill(before.engine.desk, a);
        case None =>
      }
      hide Step;
    }
  }

  lemma {:induction false} KilledTerminalIsFrozen(m: Machine, events: seq<Event>)
    requires m.engine.desk.risk.killed
    ensures Frozen(m.engine.desk, Trace(m, events).engine.desk)
  {
    if events != [] {
      hide Step;
      var before, ev := Trace(m, events[..|events| - 1]), events[|events| - 1];
      KilledTerminalIsFrozen(m, events[..|events| - 1]);
      if ev.ProcessNext? && before.pending != [] {
        match ActionOf(before.engine, before.pending[0])
        case Some(a) => KilledStep(m.engine.desk, before.engine.desk, a);
        case None =>
      }
    }
  }

  lemma {:induction false} TraceSplits(m: Machine, earlier: seq<Event>, later: seq<Event>)
    ensures Trace(m, earlier + later) == Trace(Trace(m, earlier), later)
  {
    if later == [] {
      assert earlier + later == earlier;
    } else {
      hide Next;
      var all := earlier + later;
      TraceSplits(m, earlier, later[..|later| - 1]);
      assert all[..|all| - 1] == earlier + later[..|later| - 1];
    }
  }

  /** Once a Kill command has been processed, whatever is posted, quoted or polled later trades nothing. */
  lemma NothingTradesAfterKill(symbols: seq<string>, capital: real, limits: RiskLimits,
                               earlier: seq<Event>, later: seq<Event>)
    requires var m := Trace(Booted(symbols, capital, limits), earlier);
      exists i :: 0 <= i < |m.done| && m.done[i].kind == KillAll
    ensures Frozen(Trace(Booted(symbols, capital, limits), earlier).engine.desk,
                   Trace(Booted(symbols, capital, limits), earlier + later).engine.desk)
  {
    hide Frozen;
    var m := Booted(symbols, capital, limits);
    ProcessedKillStays(m, earlier);
    TraceSplits(m, earlier, later);
    KilledTerminalIsFrozen(Trace(m, earlier), later);
  }

  // ---------- the published account ----------

  ghost predicate EveryPositionIsQuoted(e: EngineState) {
    e.desk.account.positions.Keys <= e.quotes.Keys
  }

  lemma StepTradesTheQuotedSymbol(e: EngineState, c: Command)
    ensures Processed(e, c).quotes == e.quotes
    ensures Processed(e, c).desk.account.positions.Keys <= e.desk.account.positions.Keys + e.quotes.Keys
  {
    hide AccountAfter;
    match ActionOf(e, c)
    case None =>
    case Some(a) =>
      StepIsSubmitOrKill(e.desk, a);
      hide Step;
      match SignalOf(e.desk, a)
      case None =>
      case Some(sig) => SubmitTouchesOneSymbol(e.desk, sig, a.market);
  }

  lemma SubmitTouchesOneSymbol(d: DeskState, sig: Signal, market: Quote)
    ensures Submit(d, sig, market).account.positions.Keys <= d.account.positions.Keys + {sig.symbol}
  {
    hide HoldingAfter;
    if Decide(d, sig, market).Executed? {
      ExecutedFill(d, sig, market);
    }
    hide Decide;
  }

  lemma {:induction false} PositionsAreQuoted(symbols: seq<string>, capital: real, limits: RiskLimits,
                                              events: seq<Event>)
    ensures EveryPositionIsQuoted(Trace(Booted(symbols, capital, limits), events).engine)
  {
    if events != [] {
      hide Next;
      hide EveryPositionIsQuoted;
      PositionsAreQuoted(symbols, capital, limits, events[..|events| - 1]);
      NextKeepsPositionsQuoted(Trace(Booted(symbols, capital, limits), events[..|events| - 1]), events[|events| - 1]);
    } else {
      NoPositionsAtFirst(symbols, capital, limits);
    }
  }

  lemma NoPositionsAtFirst(symbols: seq<string>, capital: real, limits: RiskLimits)
    ensures EveryPositionIsQuoted(Booted(symbols, capital, limits).engine)
  {
  }

  lemma NextKeepsPositionsQuoted(m: Machine, ev: Event)
    requires EveryPositionIsQuoted(m.engine)
    ensures EveryPositionIsQuoted(Next(m, ev).engine)
  {
    hide Processed;
    if m.pending != [] {
      StepTradesTheQuotedSymbol(m.engine, m.pending[0]);
    }
  }

  /** In every reachable state the published total is the published realized plus unrealized profit. */
  lemma PublishedPnlAddsUp(symbols: seq<string>, capital: real, limits: RiskLimits, events: seq<Event>)
    ensures var v := Published(Trace(Booted(symbols, capital, limits), events).engine);
      && v.totalPnl == v.realized + v.unrealized
      && v.totalPnl == v.equity - v.initialCapital
      && v.initialCapital == capital
  {
    var e := Trace(Booted(symbols, capital, limits), events).engine;
    ReachableDesk(symbols, capital, limits, events);
    PositionsAreQuoted(symbols, capital, limits, events);
    ReplayBalanced(capital, e.desk.fills);
    ReplayCash(capital, e.desk.fills);
    PnlIdentity(e.desk.account, MarksOf(e.quotes));
  }

  // ---------- where profit comes from ----------

  /** What crossing costs against the mid: never negative on a two-sided book. */
  function CrossingCost(q: Quote, side: Side, qty: real): real {
    if side == Buy then qty * (q.Touch(Buy) - q.Mid()) else qty * (q.Mid() - q.Touch(Sell))
  }

  function FillCost(f: Fill, quotes: map<string, Quote>): real {
    if f.symbol in quotes then CrossingCost(quotes[f.symbol], f.side, f.qty) else 0.0
  }

  function FillCosts(fills: seq<Fill>, quotes: map<string, Quote>): real {
    if fills == [] then 0.0
    else FillCosts(fills[..|fills| - 1], quotes) + FillCost(fills[|fills| - 1], quotes)
  }

  /** The profit one event brings: held quantity times the move of the mid, less the cost of new fills. */
  function GainOf(m: Machine, ev: Event): real {
    var fills := m.engine.desk.fills;
    match ev
    case QuoteArrives(s, q) =>
      if s in m.engine.quotes then NetOf(fills, s) * (q.Mid() - m.engine.quotes[s].Mid()) else 0.0
    case ProcessNext =>
      var after := Next(m, ev).engine.desk.fills;
      if |fills| <= |after| then -FillCosts(after[|fills|..], m.engine.quotes) else 0.0
    case _ => 0.0
  }

  function TotalGain(m: Machine, events: seq<Event>): real {
    if events == [] then 0.0
    else TotalGain(m, events[..|events| - 1]) + GainOf(Trace(m, events[..|events| - 1]), events[|events| - 1])
  }

  lemma QuoteMovesPnl(e: EngineState, s: string, q: Quote)
    requires EveryPositionIsQuoted(e)
    ensures PnlOf(Quoted(e, s, q)) == PnlOf(e) + e.desk.account.NetQty(s) *
              (if s in e.quotes then q.Mid() - e.quotes[s].Mid() else 0.0)
  {
    hide PositionsValue;
    var marks := MarksOf(e.quotes);
    assert MarksOf(e.quotes[s := q]) == marks[s := q.Mid()];
    MarkMovesEquity(e.desk.account, marks, s, q.Mid());
    if s !in e.quotes {
      assert e.desk.account.NetQty(s) == 0.0;
    }
  }

  lemma SubmitCostsTheSpread(d: DeskState, sig: Signal, quotes: map<string, Quote>)
    requires sig.symbol in quotes
    ensures var d' := Submit(d, sig, quotes[sig.symbol]);
      && |d.fills| <= |d'.fills|
      && TotalPnl(d'.account, MarksOf(quotes)) == TotalPnl(d.account, MarksOf(quotes))
           - FillCosts(d'.fills[|d.fills|..], quotes)
  {
    var q := quotes[sig.symbol];
    var d' := Submit(d, sig, q);
    hide TotalPnl;
    if Decide(d, sig, q).Executed? {
      var f := Decide(d, sig, q).fill;
      ExecutedFill(d, sig, q);
      FillCostsPnl(d.account, f, quotes);
      hide AccountAfter;
      hide Decide;
      assert d'.fills[|d.fills|..] == [f];
      assert FillCosts([f], quotes) == FillCosts([f][..0], quotes) + FillCost(f, quotes);
    }
  }

  lemma SpreadIsTheCost(f: Fill, q: Quote)
    requires f.price == q.Touch(f.side)
    ensures f.Signed() * (q.Mid() - f.price) == -CrossingCost(q, f.side, f.qty)
  {
    var gap := q.Touch(f.side) - q.Mid();
    assert f.side == Buy ==> f.Signed() * (q.Mid() - f.price) == -(f.qty * gap);
    assert f.side == Sell ==> f.Signed() * (q.Mid() - f.price) == -(f.qty * (q.Mid() - q.Touch(Sell)));
  }

  lemma FillCostsPnl(a: Account, f: Fill, quotes: map<string, Quote>)
    requires f.qty > 0.0 && f.symbol in quotes && f.price == quotes[f.symbol].Touch(f.side)
    ensures TotalPnl(AccountAfter(a, f), MarksOf(quotes)) == TotalPnl(a, MarksOf(quotes)) - FillCost(f, quotes)
  {
    hide Equity;
    hide HoldingAfter;
    FillMovesEquity(a, f, MarksOf(quotes));
    SpreadIsTheCost(f, quotes[f.symbol]);
  }

  lemma CommandCostsTheSpread(e: EngineState, c: Command)
    ensures var e' := Processed(e, c);
      && |e.desk.fills| <= |e'.desk.fills|
      && PnlOf(e') == PnlOf(e) - FillCosts(e'.desk.fills[|e.desk.fills|..], e.quotes)
  {
    hide TotalPnl;
    hide Submit;
    match ActionOf(e, c)
    case None =>
    case Some(a) =>
      StepIsSubmitOrKill(e.desk, a);
      hide Step;
      match SignalOf(e.desk, a)
      case None =>
      case Some(sig) => SubmitCostsTheSpread(e.desk, sig, e.quotes);
  }

  lemma EventGains(m: Machine, ev: Event, capital: real)
    requires EveryPositionIsQuoted(m.engine) && Journalled(m.engine.desk, capital)
    ensures PnlOf(Next(m, ev).engine) == PnlOf(m.engine) + GainOf(m, ev)
  {
    hide TotalPnl;
    hide Processed;
    match ev
    case QuoteArrives(s, q) =>
      ReplayMatchesJournal(capital, m.engine.desk.fills, s);
      QuoteGains(m, s, q);
    case ProcessNext =>
      if m.pending != [] {
        CommandCostsTheSpread(m.engine, m.pending[0]);
      } else {
        assert m.engine.desk.fills[|m.engine.desk.fills|..] == [];
      }
    case _ =>
  }

  lemma QuoteGains(m: Machine, s: string, q: Quote)
    requires EveryPositionIsQuoted(m.engine)
    requires m.engine.desk.account.NetQty(s) == NetOf(m.engine.desk.fills, s)
    ensures PnlOf(Quoted(m.engine, s, q)) == PnlOf(m.engine) + GainOf(m, QuoteArrives(s, q))
  {
    hide PnlOf;
    hide NetOf;
    QuoteMovesPnl(m.engine, s, q);
  }

  /** The profit of any run is the sum of what its quote moves and its crossings brought. */
  lemma {:induction false} PnlAttribution(symbols: seq<string>, capital: real, limits: RiskLimits, events: seq<Event>)
    ensures var m := Booted(symbols, capital, limits);
      PnlOf(Trace(m, events).engine) == TotalGain(m, events)
  {
    var m := Booted(symbols, capital, limits);
    if events == [] {
      assert Values(m.engine.desk.account, map[]) == map[];
    } else {
      var earlier := events[..|events| - 1];
      PnlAttribution(symbols, capital, limits, earlier);
      PositionsAreQuoted(symbols, capital, limits, earlier);
      ReachableDesk(symbols, capital, limits, earlier);
      EventGains(Trace(m, earlier), events[|events| - 1], capital);
      hide Next;
      hide PnlOf;
      hide GainOf;
    }
  }

  ghost predicate TwoSidedMarket(e: EngineState) {
    forall s | s in e.quotes :: e.quotes[s].TwoSided()
  }

  lemma CrossingIsNeverFree(q: Quote, side: Side, qty: real)
    requires q.TwoSided() && qty >= 0.0
    ensures CrossingCost(q, side, qty) >= 0.0
  {
    CrossingCostsAtLeastTheMid(q);
    ScaleUp(0.0, q.Touch(Buy) - q.Mid(), qty);
    ScaleUp(0.0, q.Mid() - q.Touch(Sell), qty);
  }

  lemma {:induction false} CostsAreNotNegative(fills: Fills, quotes: map<string, Quote>)
    requires forall s | s in quotes :: quotes[s].TwoSided()
    ensures FillCosts(fills, quotes) >= 0.0
  {
    hide CrossingCost;
    if fills != [] {
      var f := fills[|fills| - 1];
      CostsAreNotNegative(fills[..|fills| - 1], quotes);
      if f.symbol in quotes {
        CrossingIsNeverFree(quotes[f.symbol], f.side, f.qty);
      }
    }
  }

  /** Without quote updates, on two-sided books, no sequence of commands ever raises the profit. */
  lemma {:induction false} FrozenMarketNeverGains(m: Machine, events: seq<Event>)
    requires TwoSidedMarket(m.engine)
    requires forall i | 0 <= i < |events| :: !events[i].QuoteArrives?
    ensures Trace(m, events).engine.quotes == m.engine.quotes
    ensures PnlOf(Trace(m, events).engine) <= PnlOf(m.engine)
  {
    if events != [] {
      hide Next;
      hide PnlOf;
      FrozenMarketNeverGains(m, events[..|events| - 1]);
      FrozenStepNeverGains(Trace(m, events[..|events| - 1]), events[|events| - 1]);
    }
  }

  lemma FrozenStepNeverGains(m: Machine, ev: Event)
    requires TwoSidedMarket(m.engine) && !ev.QuoteArrives?
    ensures Next(m, ev).engine.quotes == m.engine.quotes
    ensures PnlOf(Next(m, ev).engine) <= PnlOf(m.engine)
  {
    hide TotalPnl;
    hide Processed;
    if ev.ProcessNext? && m.pending != [] {
      var after := Processed(m.engine, m.pending[0]);
      CommandCostsTheSpread(m.engine, m.pending[0]);
      StepTradesTheQuotedSymbol(m.engine, m.pending[0]);
      CostsAreNotNegative(after.desk.fills[|m.engine.desk.fills|..], m.engine.quotes);
    }
  }

  // ---------- what an order command buys or sells ----------

  /** A filled order command trades its symbol and side for exactly the asked notional or quantity. */
  lemma CommandTradesWhatItAsks(e: EngineState, c: Command)
    requires c.kind == BuyOrder || c.kind == SellOrder
    requires |Processed(e, c).desk.fills| > |e.desk.fills|
    ensures var fills := Processed(e, c).desk.fills;
      && |fills| == |e.desk.fills| + 1 && fills[..|e.desk.fills|] == e.desk.fills
      && var f := fills[|e.desk.fills|];
      && f.symbol == c.symbol && f.side == (if c.kind == BuyOrder then Buy else Sell)
      && (if c.useNotional then f.qty * f.price == c.amount else f.qty == c.amount)
  {
    hide AccountAfter;
    hide Decide;
    hide Quote.Touch;
    var a := ActionOf(e, c).value;
    if Decide(e.desk, a.sig, a.market).Executed? {
      ExecutedFill(e.desk, a.sig, a.market);
      AsksForTheAmount(c, a.market, a.sig.side);
    }
  }

  lemma AsksForTheAmount(c: Command, q: Quote, side: Side)
    requires q.Touch(side) > 0.0
    ensures if c.useNotional then OrderQty(c, q, side) * q.Touch(side) == c.amount
            else OrderQty(c, q, side) == c.amount
  {
    hide Quote.Touch;
    var ref := q.Touch(side);
    assert c.amount / ref * ref == c.amount;
  }
}
