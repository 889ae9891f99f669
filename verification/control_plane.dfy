/** The requests the terminal makes of its feed: each at most once, none lost inside the terminal. */
module ControlPlane {
  import opened Sequences
  import opened Risk
  import opened Terminal

  /** The crypto symbol an event adds to the watch list by command, if it was not there yet. */
  function AddedBy(m: Machine, ev: Event): seq<string> {
    if !ev.ProcessNext? || m.pending == [] then []
    else
      var c := m.pending[0];
      if c.kind == AddSymbol && c.assetClass == Crypto && c.symbol != "" && c.symbol !in m.engine.symbols
      then [c.symbol] else []
  }

  function AddedByCommand(m: Machine, events: seq<Event>): seq<string> {
    if events == [] then []
    else
      var earlier := events[..|events| - 1];
      AddedByCommand(m, earlier) + AddedBy(Trace(m, earlier), events[|events| - 1])
  }

  /** The crypto symbol an event charts for the first time in the session, if any. */
  function ChartedBy(m: Machine, ev: Event): seq<string> {
    var focus := m.engine.focus;
    if ev == ChartFocus && focus != "" && !m.engine.IsStock(focus) && focus !in m.engine.histRequested
    then [focus] else []
  }

  function FirstCharted(m: Machine, events: seq<Event>): seq<string> {
    if events == [] then []
    else
      var earlier := events[..|events| - 1];
      FirstCharted(m, earlier) + ChartedBy(Trace(m, earlier), events[|events| - 1])
  }

  ghost predicate SymbolsKept(m: Machine, initial: seq<string>) {
    && Distinct(m.engine.symbols)
    && (forall s | s in initial :: s in m.engine.symbols)
    && Distinct(m.handed + m.engine.requested)
    && (forall s | s in m.handed + m.engine.requested :: s in m.engine.symbols && s !in initial && s != "")
  }

  lemma {:induction false} JoinedKeepsDistinct(symbols: seq<string>, more: seq<string>)
    requires Distinct(symbols)
    ensures Distinct(Joined(symbols, more))
    ensures symbols <= Joined(symbols, more)
  {
    if more != [] {
      JoinedKeepsDistinct(symbols, more[..|more| - 1]);
    }
  }

  lemma NextKeepsSymbols(m: Machine, ev: Event, initial: seq<string>)
    requires SymbolsKept(m, initial)
    ensures SymbolsKept(Next(m, ev), initial)
    ensures Next(m, ev).handed + Next(m, ev).engine.requested
         == m.handed + m.engine.requested + AddedBy(m, ev)
  {
    var m' := Next(m, ev);
    var all := m.handed + m.engine.requested;
    match ev
    case MergeUniverse(universe) =>
      JoinedKeepsDistinct(m.engine.symbols, universe);
    case ProcessNext =>
      var added := AddedBy(m, ev);
      if added != [] {
        assert added[0] !in all;
        DistinctConcat(m.engine.symbols, added);
        DistinctConcat(all, added);
        assert m'.handed + m'.engine.requested == all + added;
      }
    case TakeRequested =>
      assert m'.handed + m'.engine.requested == all;
    case _ =>
  }

  /**
   What polls have taken, followed by what they will take next, is the list of crypto symbols
   newly added by command, in order; nothing is in it twice and nothing booted is in it.
   */
  lemma {:induction false} SymbolsRequestedOnce(symbols: seq<string>, capital: real, limits: RiskLimits,
                                               events: seq<Event>)
    requires Distinct(symbols)
    ensures var m := Trace(Booted(symbols, capital, limits), events);
      && SymbolsKept(m, symbols)
      && m.handed + m.engine.requested == AddedByCommand(Booted(symbols, capital, limits), events)
  {
    if events != [] {
      hide Next;
      hide SymbolsKept;
      var m := Booted(symbols, capital, limits);
      var earlier := events[..|events| - 1];
      SymbolsRequestedOnce(symbols, capital, limits, earlier);
      NextKeepsSymbols(Trace(m, earlier), events[|events| - 1], symbols);
    }
  }

  ghost predicate ChartsKept(m: Machine) {
    && Distinct(m.handedHistory + m.engine.historyRequests)
    && (forall s :: s in m.handedHistory + m.engine.historyRequests <==> s in m.engine.histRequested)
  }

  lemma NextKeepsCharts(m: Machine, ev: Event)
    requires ChartsKept(m)
    ensures ChartsKept(Next(m, ev))
    ensures Next(m, ev).handedHistory + Next(m, ev).engine.historyRequests
         == m.handedHistory + m.engine.historyRequests + ChartedBy(m, ev)
  {
    var m' := Next(m, ev);
    var all := m.handedHistory + m.engine.historyRequests;
    match ev
    case ChartFocus =>
      var charted := ChartedBy(m, ev);
      if charted != [] {
        assert charted[0] !in all;
        DistinctConcat(all, charted);
        assert m'.handedHistory + m'.engine.historyRequests == all + charted;
      }
    case TakeHistoryRequests =>
      assert m'.handedHistory + m'.engine.historyRequests == all;
    case _ =>
  }

  /** One chart-history request per crypto symbol charted in the session, in the order first charted. */
  lemma {:induction false} HistoryRequestedOnce(symbols: seq<string>, capital: real, limits: RiskLimits,
                                               events: seq<Event>)
    ensures var m := Trace(Booted(symbols, capital, limits), events);
      && ChartsKept(m)
      && m.handedHistory + m.engine.historyRequests == FirstCharted(Booted(symbols, capital, limits), events)
  {
    if events != [] {
      hide Next;
      hide ChartsKept;
      var m := Booted(symbols, capital, limits);
      var earlier := events[..|events| - 1];
      HistoryRequestedOnce(symbols, capital, limits, earlier);
      NextKeepsCharts(Trace(m, earlier), events[|events| - 1]);
    }
  }
}
