/** What the published account says, field by field, read off the journal, the commands and the quotes. */
module ViewLaws {
  import opened Types
  import opened Accounting
  import opened Sums
  import opened Journal
  import opened Risk
  import opened Desk
  import opened Terminal
  import opened TerminalLaws

  // ---------- the kill switch ----------

  ghost predicate KillAmong(commands: seq<Command>) {
    exists i :: 0 <= i < |commands| && commands[i].kind == KillAll
  }

  lemma NextKillsIff(m: Machine, ev: Event)
    ensures Next(m, ev).engine.desk.risk.killed <==>
      m.engine.desk.risk.killed || (ev.ProcessNext? && m.pending != [] && m.pending[0].kind == KillAll)
  {
    if ev.ProcessNext? && m.pending != [] {
      match ActionOf(m.engine, m.pending[0])
      case Some(a) => StepIsSubmitOrKill(m.engine.desk, a);
      case None =>
    }
    hide Step;
  }

  lemma NextKeepsDone(m: Machine, ev: Event)
    ensures Next(m, ev).done == m.done + if ev.ProcessNext? && m.pending != [] then [m.pending[0]] else []
  {
    hide Processed;
  }

  lemma KillAmongAppend(commands: seq<Command>, more: seq<Command>)
    requires |more| <= 1
    ensures KillAmong(commands + more) <==> KillAmong(commands) || (more != [] && more[0].kind == KillAll)
  {
    if more != [] && more[0].kind == KillAll {
      assert (commands + more)[|commands|] == more[0];
    }
    if KillAmong(commands) {
      var i :| 0 <= i < |commands| && commands[i].kind == KillAll;
      assert (commands + more)[i] == commands[i];
    }
  }

  /** The switch is on exactly when a Kill command has been processed. */
  lemma {:induction false} KilledIff(symbols: seq<string>, capital: real, limits: RiskLimits, events: seq<Event>)
    ensures var m := Trace(Booted(symbols, capital, limits), events);
      m.engine.desk.risk.killed <==> KillAmong(m.done)
  {
    if events != [] {
      hide Next;
      hide KillAmong;
      var m, ev := Trace(Booted(symbols, capital, limits), events[..|events| - 1]), events[|events| - 1];
      KilledIff(symbols, capital, limits, events[..|events| - 1]);
      NextKillsIff(m, ev);
      NextKeepsDone(m, ev);
      KillAmongAppend(m.done, if ev.ProcessNext? && m.pending != [] then [m.pending[0]] else []);
    }
  }

  // ---------- the money ----------

  /** Half the sum of a quote's sides, or nothing for a symbol without a quote. */
  function MidOf(quotes: map<string, Quote>, s: string): real {
    if s in quotes then 0.5 * (quotes[s].bid + quotes[s].ask) else 0.0
  }

  /** How far a quote moves its symbol's mid. */
  function MoveOf(quotes: map<string, Quote>, s: string, q: Quote): real {
    0.5 * (q.bid + q.ask) - MidOf(quotes, s)
  }

  ghost predicate AllFlat(fills: Fills) {
    forall s: string :: NetOf(fills, s) == 0.0
  }

  /** One more quote moves only the open profit, by the journalled quantity times the move of the mid. */
  ghost predicate MovesWithQuote(v: AccountView, e: EngineState, s: string, q: Quote) {
    var v' := Published(e.(quotes := e.quotes[s := q]));
    && v'.cash == v.cash && v'.realized == v.realized && v'.riskKilled == v.riskKilled
    && v'.unrealized == v.unrealized + NetOf(e.desk.fills, s) * MoveOf(e.quotes, s, q)
  }

  /** The view of an account opened with `capital`, field by field. */
  ghost predicate ShowsAccount(v: AccountView, e: EngineState, capital: real) {
    && v.initialCapital == capital
    && v.cash == capital + TotalCash(e.desk.fills)
    && v.totalPnl == v.realized + v.unrealized
    && v.totalPnl == v.equity - capital
    && v.totalPnl == PnlOf(e)
    && (AllFlat(e.desk.fills) ==> v.unrealized == 0.0 && v.realized == TotalCash(e.desk.fills) && v.equity == v.cash)
    && (forall s: string, q: Quote :: MovesWithQuote(v, e, s, q))
  }

  lemma FlatAccount(a: Account, marks: Marks)
    requires forall s: string :: a.NetQty(s) == 0.0
    ensures Unrealized(a, marks) == 0.0 && PositionsValue(a, marks) == 0.0
  {
    forall s | s in a.positions
      ensures OpenProfits(a, marks)[s] == 0.0 && Values(a, marks)[s] == 0.0
    {
      assert a.NetQty(s) == 0.0;
    }
    SumOfZeros(OpenProfits(a, marks));
    SumOfZeros(Values(a, marks));
  }

  /** What a state needs for its view to be right: a journalled account whose positions are all quoted. */
  ghost predicate Sound(e: EngineState, capital: real) {
    Journalled(e.desk, capital) && EveryPositionIsQuoted(e)
  }

  lemma SoundPnlAddsUp(e: EngineState, capital: real)
    requires Sound(e, capital)
    ensures var v := Published(e);
      && v.totalPnl == v.realized + v.unrealized
      && v.totalPnl == v.equity - capital && v.initialCapital == capital
      && v.cash == capital + TotalCash(e.desk.fills)
  {
    ReplayBalanced(capital, e.desk.fills);
    ReplayCash(capital, e.desk.fills);
    PnlIdentity(e.desk.account, MarksOf(e.quotes));
    hide Balanced;
    hide Realized;
    hide Unrealized;
    hide PositionsValue;
  }

  lemma SoundMovesWithQuote(e: EngineState, capital: real, s: string, q: Quote)
    requires Sound(e, capital)
    ensures MovesWithQuote(Published(e), e, s, q)
  {
    hide Published;
    hide PnlOf;
    hide Sound;
    hide NetOf;
    hide MoveOf;
    var e' := Quoted(e, s, q);
    QuoteKeepsTheRest(e, capital, s, q);
    SoundPnlAddsUp(e, capital);
    SoundPnlAddsUp(e', capital);
    QuoteMovesTotal(e, capital, s, q);
  }

  lemma QuoteKeepsTheRest(e: EngineState, capital: real, s: string, q: Quote)
    requires Sound(e, capital)
    ensures Sound(Quoted(e, s, q), capital)
    ensures var v, v' := Published(e), Published(Quoted(e, s, q));
      v'.cash == v.cash && v'.realized == v.realized && v'.riskKilled == v.riskKilled
    ensures Published(e).totalPnl == PnlOf(e) && Published(Quoted(e, s, q)).totalPnl == PnlOf(Quoted(e, s, q))
  {
    hide Journalled;
    hide Realized;
    hide Unrealized;
    hide TotalPnl;
    hide Equity;
  }

  lemma QuoteMovesTotal(e: EngineState, capital: real, s: string, q: Quote)
    requires Sound(e, capital)
    ensures PnlOf(Quoted(e, s, q)) == PnlOf(e) + NetOf(e.desk.fills, s) * MoveOf(e.quotes, s, q)
  {
    hide PnlOf;
    hide NetOf;
    hide Quote.Mid;
    hide MoveOf;
    hide Replay;
    JournalledNet(e.desk, capital, s);
    MoveIs(e.quotes, s, q);
    if s !in e.quotes {
      UnquotedIsFlat(e, s);
    }
    QuoteMovesPnlBy(e, s, q, NetOf(e.desk.fills, s), MoveOf(e.quotes, s, q));
  }

  lemma JournalledNet(d: DeskState, capital: real, s: string)
    requires Journalled(d, capital)
    ensures d.account.NetQty(s) == NetOf(d.fills, s)
  {
    ReplayMatchesJournal(capital, d.fills, s);
  }

  lemma UnquotedIsFlat(e: EngineState, s: string)
    requires EveryPositionIsQuoted(e) && s !in e.quotes
    ensures e.desk.account.NetQty(s) == 0.0
  {
  }

  lemma MoveIs(quotes: map<string, Quote>, s: string, q: Quote)
    ensures s in quotes ==> q.Mid() - quotes[s].Mid() == MoveOf(quotes, s, q)
  {
  }

  lemma QuoteMovesPnlBy(e: EngineState, s: string, q: Quote, net: real, move: real)
    requires EveryPositionIsQuoted(e) && net == e.desk.account.NetQty(s)
    requires if s in e.quotes then move == q.Mid() - e.quotes[s].Mid() else net == 0.0
    ensures PnlOf(Quoted(e, s, q)) == PnlOf(e) + net * move
  {
    hide PnlOf;
    hide Quote.Mid;
    QuoteMovesPnl(e, s, q);
  }

  lemma SoundViewIsRight(e: EngineState, capital: real)
    requires Sound(e, capital)
    ensures ShowsAccount(Published(e), e, capital)
  {
    SoundPnlAddsUp(e, capital);
    if AllFlat(e.desk.fills) {
      forall s: string ensures e.desk.account.NetQty(s) == 0.0 {
        ReplayMatchesJournal(capital, e.desk.fills, s);
      }
      FlatAccount(e.desk.account, MarksOf(e.quotes));
    }
    forall s: string, q: Quote ensures MovesWithQuote(Published(e), e, s, q) {
      SoundMovesWithQuote(e, capital, s, q);
    }
    hide MovesWithQuote;
    hide Sound;
    hide Realized;
    hide Unrealized;
    hide PositionsValue;
  }

  /** In every reachable state every field of the published account is what journal, commands and quotes say. */
  lemma PublishedFieldByField(symbols: seq<string>, capital: real, limits: RiskLimits, events: seq<Event>)
    ensures var m := Trace(Booted(symbols, capital, limits), events);
      && ShowsAccount(Published(m.engine), m.engine, capital)
      && (Published(m.engine).riskKilled <==> KillAmong(m.done))
  {
    hide ShowsAccount;
    hide KillAmong;
    hide Trace;
    ReachableDesk(symbols, capital, limits, events);
    PositionsAreQuoted(symbols, capital, limits, events);
    SoundViewIsRight(Trace(Booted(symbols, capital, limits), events).engine, capital);
    KilledIff(symbols, capital, limits, events);
  }
}
