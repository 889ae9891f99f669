/**
 The trading engine as a machine over values: commands are posted from one thread, swapped out
 and processed on another, quotes and the feed's control messages come in between.
 */
module Terminal {
  import opened Types
  import opened Accounting
  import opened Risk
  import opened Desk
  import Store

  datatype AssetClass = Crypto | Stock

  datatype CommandKind = BuyOrder | SellOrder | FlattenOrder | AddSymbol | KillAll | SetFocus

  datatype Command = Command(kind: CommandKind, symbol: string, amount: real, useNotional: bool,
                             assetClass: AssetClass)

  datatype EngineState = EngineState(desk: DeskState, quotes: map<string, Quote>,
                                     symbols: seq<string>, stockSymbols: seq<string>, focus: string,
                                     histRequested: set<string>,
                                     requested: seq<string>, historyRequests: seq<string>)
  {
    predicate IsStock(symbol: string) {
      symbol in stockSymbols
    }
  }

  const KILL_REASON := "manual halt (terminal)"

  function Started(symbols: seq<string>, capital: real, limits: RiskLimits): EngineState {
    EngineState(Opened(capital, limits), map[], symbols, [],
                if symbols == [] then "" else symbols[0], {}, [], [])
  }

  // ---------- one command ----------

  function OrderQty(c: Command, q: Quote, side: Side): real {
    var ref := q.Touch(side);
    if !c.useNotional then c.amount else if ref > 0.0 then c.amount / ref else 0.0
  }

  /** What a command asks of the desk, given the quotes at the moment it is processed. */
  function ActionOf(e: EngineState, c: Command): Option<Action> {
    if c.kind == KillAll then Some(KillSwitch(KILL_REASON))
    else if c.kind == AddSymbol || c.kind == SetFocus || c.symbol !in e.quotes then None
    else
      var q := e.quotes[c.symbol];
      if c.kind == FlattenOrder then Some(FlattenSymbol(c.symbol, q))
      else
        var side := if c.kind == BuyOrder then Buy else Sell;
        var qty := OrderQty(c, q, side);
        if qty > 0.0 then Some(SubmitSignal(Signal(c.symbol, side, qty, Market, 0.0, "manual", q.ts), q))
        else None
  }

  function WithSymbol(e: EngineState, c: Command): EngineState {
    if c.symbol == "" then e
    else if c.assetClass == Stock then
      if c.symbol in e.stockSymbols then e
      else e.(stockSymbols := e.stockSymbols + [c.symbol], focus := c.symbol)
    else
      if c.symbol in e.symbols then e
      else e.(symbols := e.symbols + [c.symbol], focus := c.symbol,
              requested := Store.Enqueued(e.requested, c.symbol))
  }

  function Processed(e: EngineState, c: Command): EngineState {
    if c.kind == AddSymbol then WithSymbol(e, c)
    else if c.kind == SetFocus then (if c.symbol == "" then e else e.(focus := c.symbol))
    else match ActionOf(e, c)
      case Some(a) => e.(desk := Step(e.desk, a))
      case None => e
  }

  // ---------- the other steps of the loop ----------

  function Quoted(e: EngineState, symbol: string, q: Quote): EngineState {
    e.(quotes := e.quotes[symbol := q])
  }

  /** Ask for candles the first time a crypto symbol is charted. */
  function Charted(e: EngineState): EngineState {
    if e.focus == "" || e.IsStock(e.focus) || e.focus in e.histRequested then e
    else e.(histRequested := e.histRequested + {e.focus},
            historyRequests := Store.Enqueued(e.historyRequests, e.focus))
  }

  function Joined(symbols: seq<string>, more: seq<string>): seq<string> {
    if more == [] then symbols
    else
      var earlier := Joined(symbols, more[..|more| - 1]);
      if more[|more| - 1] in earlier then earlier else earlier + [more[|more| - 1]]
  }

  function Merged(e: EngineState, universe: seq<string>): EngineState {
    var symbols := Joined(e.symbols, universe);
    e.(symbols := symbols, focus := if e.focus == "" && symbols != [] then symbols[0] else e.focus)
  }

  // ---------- one cycle of the loop ----------

  function ProcessedAll(e: EngineState, commands: seq<Command>): EngineState {
    if commands == [] then e
    else Processed(ProcessedAll(e, commands[..|commands| - 1]), commands[|commands| - 1])
  }

  /** Both quote caches over the engine's, then the chart request, then the merge if it is due. */
  function Observed(e: EngineState, st: Store.StoreState, live: map<string, Quote>, merge: bool): EngineState {
    var seen := Charted(e.(quotes := e.quotes + Store.LastOf(st, e.symbols) + live));
    if merge then Merged(seen, st.universe) else seen
  }

  // ---------- what the terminal publishes about the account ----------

  function MarksOf(quotes: map<string, Quote>): Marks {
    map s | s in quotes :: quotes[s].Mid()
  }

  ghost function PnlOf(e: EngineState): real {
    TotalPnl(e.desk.account, MarksOf(e.quotes))
  }

  datatype AccountView = AccountView(riskKilled: bool, initialCapital: real, cash: real, equity: real,
                                     realized: real, unrealized: real, totalPnl: real)

  ghost function Published(e: EngineState): AccountView {
    var a, marks := e.desk.account, MarksOf(e.quotes);
    AccountView(e.desk.risk.killed, a.initialCapital, a.cash, Equity(a, marks),
                Realized(a), Unrealized(a, marks), TotalPnl(a, marks))
  }

  // ---------- the machine ----------

  /**
   `queue` is what has been posted, `pending` what the loop swapped out and still has to process,
   `done` what it has processed; `handed` and `handedHistory` are what polls have taken so far.
   */
  datatype Machine = Machine(engine: EngineState, queue: seq<Command>, pending: seq<Command>,
                             done: seq<Command>, handed: seq<string>, handedHistory: seq<string>)

  datatype Event = Post(c: Command)
                 | Swap
                 | ProcessNext
                 | QuoteArrives(symbol: string, quote: Quote)
                 | ChartFocus
                 | MergeUniverse(universe: seq<string>)
                 | TakeRequested
                 | TakeHistoryRequests

  function Booted(symbols: seq<string>, capital: real, limits: RiskLimits): Machine {
    Machine(Started(symbols, capital, limits), [], [], [], [], [])
  }

  function Next(m: Machine, ev: Event): Machine {
    match ev
    case Post(c) => m.(queue := m.queue + [c])
    case Swap => if m.pending == [] then m.(pending := m.queue, queue := []) else m
    case ProcessNext =>
      if m.pending == [] then m
      else m.(engine := Processed(m.engine, m.pending[0]), pending := m.pending[1..],
              done := m.done + [m.pending[0]])
    case QuoteArrives(symbol, quote) => m.(engine := Quoted(m.engine, symbol, quote))
    case ChartFocus => m.(engine := Charted(m.engine))
    case MergeUniverse(universe) => m.(engine := Merged(m.engine, universe))
    case TakeRequested =>
      m.(engine := m.engine.(requested := []), handed := m.handed + m.engine.requested)
    case TakeHistoryRequests =>
      m.(engine := m.engine.(historyRequests := []), handedHistory := m.handedHistory + m.engine.historyRequests)
  }

  function Trace(m: Machine, events: seq<Event>): Machine {
    if events == [] then m
    else Next(Trace(m, events[..|events| - 1]), events[|events| - 1])
  }

  lemma TraceNext(m: Machine, events: seq<Event>, ev: Event)
    ensures Trace(m, events + [ev]) == Next(Trace(m, events), ev)
  {
    assert (events + [ev])[..|events|] == events;
  }
}
