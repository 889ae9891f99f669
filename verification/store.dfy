/**
 The in-process market store as values: bounded price tapes, the last quote of each symbol and
 the queues of requests to the feed; and the laws of its tapes.
 */
module Store {
  import opened Types

  /** The newest representable time, standing for the front of an empty tape. */
  const MAX_TIMESTAMP: int := 0x7FFF_FFFF_FFFF_FFFF

  type Tape = seq<PricePoint>

  /** The last quote of each symbol, filed under the symbol it is for. */
  type LastQuotes = m: map<string, Quote> | forall s | s in m :: m[s].symbol == s witness map[]

  datatype StoreState = StoreState(lastQuote: LastQuotes, tapes: map<string, Tape>,
                                   products: seq<string>, universe: seq<string>,
                                   names: map<string, string>,
                                   requested: seq<string>, historyRequests: seq<string>)
  {
    function TapeOf(symbol: string): Tape {
      if symbol in tapes then tapes[symbol] else []
    }
  }

  const EMPTY := StoreState(map[], map[], [], [], map[], [], [])

  function LastN<T>(n: nat, s: seq<T>): seq<T> {
    if |s| <= n then s else s[|s| - n..]
  }

  /** Drops points from the front until the tape fits. */
  method TrimFront(tape: Tape, cap: nat) returns (h: Tape)
    ensures h == LastN(cap, tape)
  {
    h := tape;
    while |h| > cap
      invariant |h| <= |tape| && h == tape[|tape| - |h|..]
      invariant if |tape| > cap then |h| >= cap else h == tape
    {
      h := h[1..];
    }
  }

  function Oldest(tape: Tape): int {
    if tape == [] then MAX_TIMESTAMP else tape[0].ts
  }

  predicate Acceptable(p: PricePoint, oldest: int) {
    p.price > 0.0 && 0 < p.ts < oldest
  }

  function Accepted(points: Tape, oldest: int): Tape {
    if points == [] then []
    else
      var rest := Accepted(points[..|points| - 1], oldest);
      if Acceptable(points[|points| - 1], oldest) then rest + [points[|points| - 1]] else rest
  }

  // ---------- one operation ----------

  function Traded(tape: Tape, p: PricePoint, cap: nat): Tape {
    LastN(cap, tape + [p])
  }

  function Backfilled(tape: Tape, points: Tape, cap: nat): Tape {
    LastN(cap, Accepted(points, Oldest(tape)) + tape)
  }

  function OnQuote(st: StoreState, q: Quote): StoreState {
    if q.symbol == "" then st else st.(lastQuote := st.lastQuote[q.symbol := q])
  }

  function OnTrade(st: StoreState, symbol: string, p: PricePoint, cap: nat): StoreState {
    if symbol == "" || p.price <= 0.0 then st
    else st.(tapes := st.tapes[symbol := Traded(st.TapeOf(symbol), p, cap)])
  }

  function OnBackfill(st: StoreState, symbol: string, points: Tape, cap: nat): StoreState {
    if symbol == "" || points == [] then st
    else st.(tapes := st.tapes[symbol := Backfilled(st.TapeOf(symbol), points, cap)])
  }

  function Enqueued(queue: seq<string>, symbol: string): seq<string> {
    if symbol == "" || symbol in queue then queue else queue + [symbol]
  }

  function History(st: StoreState, symbol: string, n: int): Tape {
    if n <= 0 then [] else LastN(n, st.TapeOf(symbol))
  }

  function Snapshot(st: StoreState, symbols: seq<string>): seq<Quote> {
    if symbols == [] then []
    else
      var s := symbols[|symbols| - 1];
      Snapshot(st, symbols[..|symbols| - 1]) + if s in st.lastQuote then [st.lastQuote[s]] else []
  }

  // ---------- the bounded tapes refine tapes that are never trimmed ----------

  datatype TapeEvent = TradeEvent(symbol: string, point: PricePoint)
                     | BackfillEvent(symbol: string, points: Tape)

  function Recorded(st: StoreState, e: TapeEvent, cap: nat): StoreState {
    match e
    case TradeEvent(symbol, point) => OnTrade(st, symbol, point, cap)
    case BackfillEvent(symbol, points) => OnBackfill(st, symbol, points, cap)
  }

  function RunTapes(events: seq<TapeEvent>, cap: nat): StoreState {
    if events == [] then EMPTY
    else Recorded(RunTapes(events[..|events| - 1], cap), events[|events| - 1], cap)
  }

  function Extended(tape: Tape, e: TapeEvent, symbol: string): Tape {
    if e.symbol != symbol || symbol == "" then tape
    else match e
      case TradeEvent(_, p) => if p.price > 0.0 then tape + [p] else tape
      case BackfillEvent(_, points) => Accepted(points, Oldest(tape)) + tape
  }

  /** The unbounded tape of one symbol: nothing is ever dropped from it. */
  function ReferenceTape(events: seq<TapeEvent>, symbol: string): Tape {
    if events == [] then []
    else Extended(ReferenceTape(events[..|events| - 1], symbol), events[|events| - 1], symbol)
  }

  lemma LastNOfAppend<T>(n: nat, s: seq<T>, x: T)
    ensures LastN(n, LastN(n, s) + [x]) == LastN(n, s + [x])
  {
  }

  /** Prepending to a trimmed tape changes nothing, so it does not matter what was filtered. */
  lemma BackfillRefines(cap: nat, reference: Tape, points: Tape)
    ensures Backfilled(LastN(cap, reference), points, cap)
         == LastN(cap, Accepted(points, Oldest(reference)) + reference)
  {
    var tape := LastN(cap, reference);
    if |reference| >= cap {
      PrependToFull(cap, Accepted(points, Oldest(tape)), tape);
      PrependToFull(cap, Accepted(points, Oldest(reference)), reference);
    }
    hide Accepted;
  }

  lemma PrependToTrimmed(cap: nat, older: Tape, tape: Tape)
    ensures LastN(cap, older + LastN(cap, tape)) == LastN(cap, older + tape)
  {
    if |tape| >= cap {
      PrependToFull(cap, older, LastN(cap, tape));
      PrependToFull(cap, older, tape);
    }
  }

  lemma PrependToFull(cap: nat, older: Tape, tape: Tape)
    requires |tape| >= cap
    ensures LastN(cap, older + tape) == LastN(cap, tape)
  {
  }

  lemma StepRefines(st: StoreState, e: TapeEvent, cap: nat, symbol: string, reference: Tape)
    requires st.TapeOf(symbol) == LastN(cap, reference)
    ensures Recorded(st, e, cap).TapeOf(symbol) == LastN(cap, Extended(reference, e, symbol))
  {
    hide LastN;
    match e
    case TradeEvent(_, p) => LastNOfAppend(cap, reference, p);
    case BackfillEvent(_, points) =>
      BackfillRefines(cap, reference, points);
      assert points == [] ==> Accepted(points, Oldest(reference)) + reference == reference;
  }

  lemma {:induction false} BoundedTapeRefinesReference(events: seq<TapeEvent>, cap: nat, symbol: string)
    ensures RunTapes(events, cap).TapeOf(symbol) == LastN(cap, ReferenceTape(events, symbol))
  {
    if events != [] {
      var earlier, e := events[..|events| - 1], events[|events| - 1];
      BoundedTapeRefinesReference(earlier, cap, symbol);
      StepRefines(RunTapes(earlier, cap), e, cap, symbol, ReferenceTape(earlier, symbol));
      hide LastN;
      hide Recorded;
      hide Extended;
    }
  }

  /** The chart reads exactly the last min(n, cap) points of the tape that was never trimmed. */
  lemma HistoryReadsTheReference(events: seq<TapeEvent>, cap: nat, symbol: string, n: int)
    ensures History(RunTapes(events, cap), symbol, n)
         == LastN(if n <= 0 then 0 else if n <= cap then n else cap, ReferenceTape(events, symbol))
  {
    BoundedTapeRefinesReference(events, cap, symbol);
  }

  // ---------- backfill ----------

  ghost predicate Sorted(tape: Tape) {
    forall i, j | 0 <= i <= j < |tape| :: tape[i].ts <= tape[j].ts
  }

  lemma {:induction false} AcceptedIsFilter(points: Tape, oldest: int)
    ensures forall p :: p in Accepted(points, oldest) <==> p in points && p.price > 0.0 && 0 < p.ts < oldest
  {
    if points != [] {
      var earlier, last := points[..|points| - 1], points[|points| - 1];
      AcceptedIsFilter(earlier, oldest);
      assert points == earlier + [last];
    }
  }

  lemma {:induction false} AcceptedStaysSorted(points: Tape, oldest: int)
    requires Sorted(points)
    ensures Sorted(Accepted(points, oldest))
  {
    if points != [] {
      var earlier, last := points[..|points| - 1], points[|points| - 1];
      var kept := Accepted(earlier, oldest);
      AcceptedStaysSorted(earlier, oldest);
      AcceptedIsFilter(earlier, oldest);
      forall i | 0 <= i < |kept| ensures kept[i].ts <= last.ts {
        assert kept[i] in earlier;
      }
    }
  }

  /** The filter goes point by point, in order, and an empty tape bounds it by the newest time there is. */
  lemma AcceptedPointByPoint(tape: Tape, points: Tape, p: PricePoint)
    ensures var oldest := if tape == [] then 0x7FFF_FFFF_FFFF_FFFF else tape[0].ts;
      && Accepted([], Oldest(tape)) == []
      && Accepted(points + [p], Oldest(tape))
           == Accepted(points, Oldest(tape)) + (if p.price > 0.0 && 0 < p.ts < oldest then [p] else [])
  {
    assert (points + [p])[..|points|] == points;
  }

  /** The tape that was there is kept whole at the end, and everything in front of it is older. */
  lemma BackfillKeepsTape(tape: Tape, points: Tape, cap: nat)
    requires |tape| <= cap
    ensures var tape' := Backfilled(tape, points, cap);
      var added := |tape'| - |tape|;
      && 0 <= added && tape'[added..] == tape && |tape'| <= cap
      && (forall i | 0 <= i < added :: tape'[i] in points && tape'[i].price > 0.0 && 0 < tape'[i].ts < Oldest(tape))
      && (added < |Accepted(points, Oldest(tape))| ==> |tape'| == cap)
  {
    var older := Accepted(points, Oldest(tape));
    var tape' := Backfilled(tape, points, cap);
    AcceptedIsFilter(points, Oldest(tape));
    forall i | 0 <= i < |tape'| - |tape| ensures tape'[i] in older {
      assert tape'[i] == older[i + |older| + |tape| - |tape'|];
    }
  }

  lemma BackfillKeepsSorted(tape: Tape, points: Tape, cap: nat)
    requires Sorted(tape) && Sorted(points)
    ensures Sorted(Backfilled(tape, points, cap))
  {
    var older := Accepted(points, Oldest(tape));
    AcceptedIsFilter(points, Oldest(tape));
    AcceptedStaysSorted(points, Oldest(tape));
    forall i | 0 <= i < |older| ensures Acceptable(older[i], Oldest(tape)) {
      assert older[i] in older;
    }
    assert Sorted(older + tape);
  }

  /** No accepted point is older than the first accepted one, or the tape is full. */
  ghost predicate RepeatsHarmlessly(tape: Tape, points: Tape, cap: nat) {
    var older := Accepted(points, Oldest(tape));
    || |older| + |tape| >= cap
    || (forall p | p in older :: older[0].ts <= p.ts)
  }

  /** Applying the same backfill twice equals applying it once exactly when it repeats harmlessly. */
  lemma BackfillTwiceIff(tape: Tape, points: Tape, cap: nat)
    requires |tape| <= cap
    ensures var once := Backfilled(tape, points, cap);
      Backfilled(once, points, cap) == once <==> RepeatsHarmlessly(tape, points, cap)
  {
    var older := Accepted(points, Oldest(tape));
    var once := Backfilled(tape, points, cap);
    var again := Accepted(points, Oldest(once));
    AcceptedIsFilter(points, Oldest(tape));
    AcceptedIsFilter(points, Oldest(once));
    if |older| + |tape| >= cap {
      assert |once| == cap;
    } else {
      assert once == older + tape;
      if older != [] {
        assert older[0] in older;
        if again != [] {
          assert again[0] in again && again[0] in older;
        }
        forall p | p in older && p.ts < older[0].ts ensures p in again {}
      }
    }
  }

  /** In particular a time-sorted backfill can be repeated freely. */
  lemma SortedBackfillRepeatsHarmlessly(tape: Tape, points: Tape, cap: nat)
    requires Sorted(points)
    ensures RepeatsHarmlessly(tape, points, cap)
  {
    AcceptedStaysSorted(points, Oldest(tape));
  }

  /** Two points out of time order, filled in on an empty tape: the repeat adds the older one again. */
  lemma UnsortedBackfillIsNotIdempotent()
    ensures var e := BackfillEvent("A", [PricePoint(5, 1.0), PricePoint(3, 1.0)]);
      RunTapes([e], 10).TapeOf("A") != RunTapes([e, e], 10).TapeOf("A")
  {
    var points := [PricePoint(5, 1.0), PricePoint(3, 1.0)];
    var e := BackfillEvent("A", points);
    assert [e][..0] == [] && [e, e][..1] == [e];
    FirstAccepted(points[0], points[1], MAX_TIMESTAMP);
    assert Backfilled([], points, 10) == points;
    AcceptedIsFilter(points, 5);
    BackfillTwiceIff([], points, 10);
    assert !(Accepted(points, MAX_TIMESTAMP)[0].ts <= points[1].ts) && points[1] in Accepted(points, MAX_TIMESTAMP);
  }

  lemma FirstAccepted(p: PricePoint, q: PricePoint, oldest: int)
    ensures Accepted([p, q], oldest)
         == (if Acceptable(p, oldest) then [p] else []) + (if Acceptable(q, oldest) then [q] else [])
  {
    assert [p, q][..1] == [p] && [p][..0] == [];
    assert Accepted([p], oldest) == if Acceptable(p, oldest) then [p] else [];
  }

  // ---------- when tapes are in time order ----------

  /** Whether an event puts a live trade on a symbol's tape. */
  predicate Prints(e: TapeEvent, symbol: string) {
    e.TradeEvent? && e.symbol == symbol && symbol != "" && e.point.price > 0.0
  }

  /** The live trades of a symbol, in the order they came. */
  function Live(events: seq<TapeEvent>, symbol: string): Tape {
    if events == [] then []
    else
      var e := events[|events| - 1];
      Live(events[..|events| - 1], symbol) + if Prints(e, symbol) then [e.point] else []
  }

  /** What was backfilled for a symbol before its first live trade, when nothing live bounds it. */
  function Seed(events: seq<TapeEvent>, symbol: string): Tape {
    if events == [] then []
    else
      var earlier, e := events[..|events| - 1], events[|events| - 1];
      var seed := Seed(earlier, symbol);
      if e.BackfillEvent? && e.symbol == symbol && symbol != "" && Live(earlier, symbol) == []
      then Accepted(e.points, Oldest(seed)) + seed else seed
  }

  /** The seed ends no later than the first live trade. */
  predicate SeedFits(events: seq<TapeEvent>, symbol: string) {
    var seed, live := Seed(events, symbol), Live(events, symbol);
    seed != [] && live != [] ==> seed[|seed| - 1].ts <= live[0].ts
  }

  ghost predicate BackfillsSorted(events: seq<TapeEvent>, symbol: string) {
    forall i | 0 <= i < |events| ::
      events[i].BackfillEvent? && events[i].symbol == symbol ==> Sorted(events[i].points)
  }

  lemma SortedConcat(a: Tape, b: Tape)
    ensures Sorted(a + b) <==>
      Sorted(a) && Sorted(b) && (a != [] && b != [] ==> a[|a| - 1].ts <= b[0].ts)
  {
    var ab := a + b;
    if Sorted(ab) {
      forall i, j | 0 <= i <= j < |a| ensures a[i].ts <= a[j].ts { assert ab[i] == a[i] && ab[j] == a[j]; }
      forall i, j | 0 <= i <= j < |b| ensures b[i].ts <= b[j].ts {
        assert ab[|a| + i] == b[i] && ab[|a| + j] == b[j];
      }
      if a != [] && b != [] {
        assert ab[|a| - 1] == a[|a| - 1] && ab[|a|] == b[0];
      }
    }
  }

  /** Everything backfilled so far. */
  function Front(events: seq<TapeEvent>, symbol: string): Tape {
    if events == [] then []
    else
      var earlier, e := events[..|events| - 1], events[|events| - 1];
      var front := Front(earlier, symbol);
      if e.BackfillEvent? && e.symbol == symbol && symbol != ""
      then Accepted(e.points, Oldest(ReferenceTape(earlier, symbol))) + front else front
  }

  /** Whatever order they came in, the backfilled points lie in front of the live trades. */
  lemma {:induction false} TapeIsFrontThenTrades(events: seq<TapeEvent>, symbol: string)
    ensures ReferenceTape(events, symbol) == Front(events, symbol) + Live(events, symbol)
  {
    if events != [] {
      hide Accepted;
      var earlier, e := events[..|events| - 1], events[|events| - 1];
      TapeIsFrontThenTrades(earlier, symbol);
      var front, live := Front(earlier, symbol), Live(earlier, symbol);
      if Prints(e, symbol) {
        assert front + live + [e.point] == front + (live + [e.point]);
      } else {
        assert live + [] == live;
        if e.BackfillEvent? && e.symbol == symbol && symbol != "" {
          var older := Accepted(e.points, Oldest(front + live));
          assert older + (front + live) == older + front + live;
        }
      }
    }
  }

  /** The front is in order, ends where the seed ends, and without a seed is older than every trade. */
  ghost predicate FrontFits(front: Tape, seed: Tape, live: Tape) {
    && Sorted(front)
    && (live == [] ==> front == seed)
    && (seed != [] ==> front != [] && front[|front| - 1] == seed[|seed| - 1])
    && (seed == [] && live != [] && front != [] ==> front[|front| - 1].ts < live[0].ts)
  }

  lemma BackfillKeepsFrontFits(front: Tape, seed: Tape, live: Tape, points: Tape)
    requires FrontFits(front, seed, live) && Sorted(points)
    ensures FrontFits(Accepted(points, Oldest(front + live)) + front,
                      if live == [] then Accepted(points, Oldest(seed)) + seed else seed, live)
  {
    var older := Accepted(points, Oldest(front + live));
    AcceptedIsFilter(points, Oldest(front + live));
    AcceptedStaysSorted(points, Oldest(front + live));
    hide Accepted;
    SortedConcat(older, front);
    hide Sorted;
    if older != [] {
      assert older[|older| - 1] in older;
    }
    if live == [] {
      assert front + live == front;
    }
  }

  lemma {:induction false} FrontAlwaysFits(events: seq<TapeEvent>, symbol: string)
    requires BackfillsSorted(events, symbol)
    ensures FrontFits(Front(events, symbol), Seed(events, symbol), Live(events, symbol))
  {
    if events != [] {
      var earlier, e := events[..|events| - 1], events[|events| - 1];
      forall i | 0 <= i < |earlier| && earlier[i].BackfillEvent? && earlier[i].symbol == symbol
        ensures Sorted(earlier[i].points)
      {
        assert earlier[i] == events[i];
      }
      FrontAlwaysFits(earlier, symbol);
      TapeIsFrontThenTrades(earlier, symbol);
      hide Sorted;
      hide Accepted;
      if e.BackfillEvent? && e.symbol == symbol && symbol != "" {
        hide FrontFits;
        BackfillKeepsFrontFits(Front(earlier, symbol), Seed(earlier, symbol), Live(earlier, symbol), e.points);
        assert Live(events, symbol) == Live(earlier, symbol);
      }
    }
  }

  /** With time-sorted backfills a tape is in order exactly when its trades are and its seed fits them. */
  lemma ReferenceSortedIff(events: seq<TapeEvent>, symbol: string)
    requires BackfillsSorted(events, symbol)
    ensures Sorted(ReferenceTape(events, symbol)) <==> Sorted(Live(events, symbol)) && SeedFits(events, symbol)
  {
    TapeIsFrontThenTrades(events, symbol);
    FrontAlwaysFits(events, symbol);
    SortedConcat(Front(events, symbol), Live(events, symbol));
    hide Sorted;
  }

  /**
   The bounded tape is in order exactly when the trades it still holds are, and either the seed fits
   them or they have displaced it.
   */
  lemma TapeSortedIff(events: seq<TapeEvent>, cap: nat, symbol: string)
    requires BackfillsSorted(events, symbol)
    ensures Sorted(RunTapes(events, cap).TapeOf(symbol)) <==>
      && Sorted(LastN(cap, Live(events, symbol)))
      && (SeedFits(events, symbol) || |Live(events, symbol)| >= cap)
  {
    hide Sorted;
    hide LastN;
    hide RunTapes;
    BoundedTapeRefinesReference(events, cap, symbol);
    TapeIsFrontThenTrades(events, symbol);
    FrontAlwaysFits(events, symbol);
    TrimmedSortedIff(Front(events, symbol), Live(events, symbol), cap);
    hide Front;
    hide Seed;
    hide Live;
  }

  lemma TrimmedSortedIff(front: Tape, live: Tape, cap: nat)
    requires Sorted(front)
    ensures Sorted(LastN(cap, front + live)) <==>
      && Sorted(LastN(cap, live))
      && (|live| < cap && front != [] && live != [] ==> front[|front| - 1].ts <= live[0].ts)
  {
    hide Sorted;
    if |live| >= cap {
      PrependToFull(cap, front, live);
    } else {
      var kept := LastN(cap - |live|, front);
      assert LastN(cap, front + live) == kept + live;
      assert front == front[..|front| - |kept|] + kept;
      SortedConcat(front[..|front| - |kept|], kept);
      SortedConcat(kept, live);
    }
  }

  /** Sorted trades and a sorted backfill that still leave a tape out of order: the backfill was newer. */
  lemma NewerSeedLeavesTheTapeUnsorted()
    ensures var events := [BackfillEvent("A", [PricePoint(100, 1.0)]), TradeEvent("A", PricePoint(50, 1.0))];
      && BackfillsSorted(events, "A") && Sorted(Live(events, "A"))
      && !Sorted(RunTapes(events, 10).TapeOf("A"))
  {
    var fill, trade := BackfillEvent("A", [PricePoint(100, 1.0)]), TradeEvent("A", PricePoint(50, 1.0));
    hide RunTapes;
    hide Seed;
    hide Live;
    hide Sorted;
    hide LastN;
    SeedOfTwo(fill, trade);
    OnePointIsSorted(fill.points);
    OnePointIsSorted([trade.point]);
    TapeSortedIff([fill, trade], 10, "A");
  }

  lemma OnePointIsSorted(tape: Tape)
    requires |tape| == 1
    ensures Sorted(tape)
  {
  }

  lemma SeedOfTwo(fill: TapeEvent, trade: TapeEvent)
    requires fill.BackfillEvent? && fill.symbol == "A" && trade.TradeEvent?
    requires |fill.points| == 1 && Acceptable(fill.points[0], MAX_TIMESTAMP) && Prints(trade, "A")
    ensures Seed([fill, trade], "A") == fill.points && Live([fill, trade], "A") == [trade.point]
  {
    assert [fill, trade][..1] == [fill] && [fill][..0] == [] && fill.points[..0] == [];
    assert Accepted(fill.points, MAX_TIMESTAMP) == fill.points;
    hide Accepted;
    assert Live([], "A") == [] && Seed([], "A") == [];
    assert Live([fill], "A") == [];
    assert Seed([fill], "A") == Accepted(fill.points, Oldest([])) + [];
    assert Live([fill, trade], "A") == [] + [trade.point];
    assert Seed([fill, trade], "A") == Seed([fill], "A");
  }

  // ---------- the last-value cache ----------

  /** A snapshot lists, in request order, the last quote of each symbol that has one. */
  lemma {:induction false} SnapshotAnswersTheRequest(st: StoreState, symbols: seq<string>)
    ensures forall q :: q in Snapshot(st, symbols) <==>
      q.symbol in symbols && q.symbol in st.lastQuote && q == st.lastQuote[q.symbol]
  {
    if symbols != [] {
      var earlier := symbols[..|symbols| - 1];
      SnapshotAnswersTheRequest(st, earlier);
      assert symbols == earlier + [symbols[|symbols| - 1]];
    }
  }

  /** Rows written over a table of quotes, one after the other. */
  function Overlaid(quotes: map<string, Quote>, rows: seq<Quote>): map<string, Quote> {
    if rows == [] then quotes
    else Overlaid(quotes, rows[..|rows| - 1])[rows[|rows| - 1].symbol := rows[|rows| - 1]]
  }

  function LastOf(st: StoreState, symbols: seq<string>): map<string, Quote> {
    map s | s in symbols && s in st.lastQuote :: st.lastQuote[s]
  }

  lemma OverrideOneMore(quotes: map<string, Quote>, newer: map<string, Quote>, s: string, q: Quote)
    ensures quotes + newer[s := q] == (quotes + newer)[s := q]
  {
  }

  /** Writing a snapshot over a table replaces exactly the requested symbols that have a quote. */
  lemma {:induction false} SnapshotOverlays(quotes: map<string, Quote>, st: StoreState, symbols: seq<string>)
    ensures Overlaid(quotes, Snapshot(st, symbols)) == quotes + LastOf(st, symbols)
  {
    hide LastOf;
    hide Snapshot;
    hide Overlaid;
    if symbols == [] {
      NothingRequested(quotes, st);
    } else {
      var earlier, s := symbols[..|symbols| - 1], symbols[|symbols| - 1];
      SnapshotOverlays(quotes, st, earlier);
      LastRequested(st, symbols);
      if s in st.lastQuote {
        OverlaidAppend(quotes, Snapshot(st, earlier), st.lastQuote[s]);
        OverrideOneMore(quotes, LastOf(st, earlier), s, st.lastQuote[s]);
      }
    }
  }

  lemma NothingRequested(quotes: map<string, Quote>, st: StoreState)
    ensures Overlaid(quotes, Snapshot(st, [])) == quotes && quotes + LastOf(st, []) == quotes
  {
    assert LastOf(st, []) == map[];
  }

  lemma LastRequested(st: StoreState, symbols: seq<string>)
    requires symbols != []
    ensures var earlier, s := symbols[..|symbols| - 1], symbols[|symbols| - 1];
      if s in st.lastQuote
      then Snapshot(st, symbols) == Snapshot(st, earlier) + [st.lastQuote[s]]
           && LastOf(st, symbols) == LastOf(st, earlier)[s := st.lastQuote[s]]
      else Snapshot(st, symbols) == Snapshot(st, earlier) && LastOf(st, symbols) == LastOf(st, earlier)
  {
    assert symbols == symbols[..|symbols| - 1] + [symbols[|symbols| - 1]];
    assert Snapshot(st, symbols[..|symbols| - 1]) + [] == Snapshot(st, symbols[..|symbols| - 1]);
  }

  lemma OverlaidAppend(quotes: map<string, Quote>, rows: seq<Quote>, q: Quote)
    ensures Overlaid(quotes, rows + [q]) == Overlaid(quotes, rows)[q.symbol := q]
  {
    assert (rows + [q])[..|rows|] == rows;
  }
}
