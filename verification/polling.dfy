/** The stock poller's schedule, one-time backfill and sampling, as values. */
module Polling {
  import opened Types
  import opened Sequences
  import Store

  /** Nanoseconds, the unit of the steady clock. */
  const QUOTE_INTERVAL: int := 1_000_000_000
  const ERROR_BACKOFF: int := 5_000_000_000

  /** The length of `n` quote intervals. */
  function Intervals(n: int): int {
    n * 1_000_000_000
  }

  /** The mid of a two-sided quote, else whichever side is there. */
  function ChartPrice(q: Quote): real {
    if q.bid > 0.0 && q.ask > 0.0 then q.Mid()
    else if q.bid > 0.0 then q.bid
    else q.ask
  }

  /** A price is charted exactly when a side is quoted: the mid, and an absent side never pulls it down. */
  lemma ChartPriceIgnoresAbsentSides(q: Quote)
    ensures ChartPrice(q) > 0.0 <==> q.bid > 0.0 || q.ask > 0.0
    ensures q.bid > 0.0 && q.ask > 0.0 ==> ChartPrice(q) == 0.5 * (q.bid + q.ask) && Min(q.bid, q.ask) <= ChartPrice(q)
    ensures (q.bid > 0.0) != (q.ask > 0.0) ==> ChartPrice(q) == if q.bid > 0.0 then q.bid else q.ask
  {
  }

  datatype FeedState = FeedState(nextPoll: int, watched: seq<string>, quotes: map<string, Quote>,
                                 history: map<string, Store.Tape>, names: map<string, string>,
                                 backfilled: set<string>)
  {
    function TapeOf(symbol: string): Store.Tape {
      if symbol in history then history[symbol] else []
    }
  }

  /**
   What one pass of the loop reads from outside: the clock at its start and when it reschedules,
   and the vendor's answers. An empty quote answer is a failed poll.
   */
  datatype Pass = Pass(now: int, finished: int, bars: map<string, Store.Tape>,
                       assetNames: map<string, string>, answer: map<string, Quote>)

  function BarsOf(p: Pass, symbol: string): Store.Tape {
    if symbol in p.bars then p.bars[symbol] else []
  }

  function NameOf(p: Pass, symbol: string): string {
    if symbol in p.assetNames then p.assetNames[symbol] else ""
  }

  datatype Poll = Poll(start: int, ok: bool)

  function Scheduled(deadline: int, interval: int, finished: int): int {
    if deadline + interval >= finished then deadline + interval else finished
  }

  predicate Due(st: FeedState, p: Pass) {
    p.now >= st.nextPoll
  }

  predicate Polls(st: FeedState, p: Pass) {
    Due(st, p) && st.watched != []
  }

  /** The one-time work for a symbol: backfill in front of the live samples, and its name. */
  function Prepared(st: FeedState, p: Pass, symbol: string, cap: nat): FeedState {
    var st1 := if symbol in st.backfilled then st
               else st.(backfilled := st.backfilled + {symbol},
                        history := st.history[symbol := Store.LastN(cap, BarsOf(p, symbol) + st.TapeOf(symbol))]);
    if symbol in st1.names then st1 else st1.(names := st1.names[symbol := NameOf(p, symbol)])
  }

  function PreparedAll(st: FeedState, p: Pass, symbols: seq<string>, cap: nat): FeedState {
    if symbols == [] then st
    else Prepared(PreparedAll(st, p, symbols[..|symbols| - 1], cap), p, symbols[|symbols| - 1], cap)
  }

  /** One sample per answered symbol whose quote has a price to chart. */
  function Samples(st: FeedState, answer: map<string, Quote>, cap: nat): map<string, Store.Tape> {
    map s | s in answer && ChartPrice(answer[s]) > 0.0 ::
      Store.LastN(cap, st.TapeOf(s) + [PricePoint(answer[s].ts, ChartPrice(answer[s]))])
  }

  function Answered(st: FeedState, answer: map<string, Quote>, cap: nat): FeedState {
    st.(quotes := st.quotes + answer, history := st.history + Samples(st, answer, cap))
  }

  function AfterPass(st: FeedState, p: Pass, cap: nat): FeedState {
    if !Due(st, p) then st
    else if st.watched == [] then st.(nextPoll := Scheduled(st.nextPoll, QUOTE_INTERVAL, p.finished))
    else
      var ready := PreparedAll(st, p, st.watched, cap);
      if p.answer == map[] then ready.(nextPoll := Scheduled(st.nextPoll, ERROR_BACKOFF, p.finished))
      else Answered(ready, p.answer, cap).(nextPoll := Scheduled(st.nextPoll, QUOTE_INTERVAL, p.finished))
  }

  // ---------- runs: symbols may be watched between any two passes ----------

  datatype FeedEvent = Watch(symbol: string) | RunPass(p: Pass)

  function Watched(st: FeedState, symbol: string): FeedState {
    if symbol in st.watched then st else st.(watched := st.watched + [symbol])
  }

  function After(st: FeedState, e: FeedEvent, cap: nat): FeedState {
    match e
    case Watch(symbol) => Watched(st, symbol)
    case RunPass(p) => AfterPass(st, p, cap)
  }

  function Fresh(t0: int): FeedState {
    FeedState(t0, [], map[], map[], map[], {})
  }

  function RunFeed(t0: int, events: seq<FeedEvent>, cap: nat): FeedState {
    if events == [] then Fresh(t0)
    else After(RunFeed(t0, events[..|events| - 1], cap), events[|events| - 1], cap)
  }

  function PollIn(st: FeedState, e: FeedEvent): seq<Poll> {
    if e.RunPass? && Polls(st, e.p) then [Poll(e.p.now, e.p.answer != map[])] else []
  }

  /** The quote polls a run makes, in order. */
  function PollsOf(t0: int, events: seq<FeedEvent>, cap: nat): seq<Poll> {
    if events == [] then []
    else
      var earlier := events[..|events| - 1];
      PollsOf(t0, earlier, cap) + PollIn(RunFeed(t0, earlier, cap), events[|events| - 1])
  }

  function BackfillsIn(st: FeedState, e: FeedEvent): seq<string> {
    if e.RunPass? && Polls(st, e.p) then Missing(st.watched, st.backfilled) else []
  }

  /** The backfill requests a run makes, in order. */
  function BackfillsOf(t0: int, events: seq<FeedEvent>, cap: nat): seq<string> {
    if events == [] then []
    else
      var earlier := events[..|events| - 1];
      BackfillsOf(t0, earlier, cap) + BackfillsIn(RunFeed(t0, earlier, cap), events[|events| - 1])
  }

  function Missing(symbols: seq<string>, have: set<string>): seq<string> {
    if symbols == [] then []
    else
      var s := symbols[|symbols| - 1];
      Missing(symbols[..|symbols| - 1], have) + if s in have then [] else [s]
  }

  /** No pass reschedules before it started. */
  ghost predicate ClockAdvances(events: seq<FeedEvent>) {
    forall i | 0 <= i < |events| && events[i].RunPass? :: events[i].p.now <= events[i].p.finished
  }

  function Spent(polls: seq<Poll>): int {
    if polls == [] then 0
    else Spent(polls[..|polls| - 1]) + IntervalOf(polls[|polls| - 1])
  }

  function IntervalOf(poll: Poll): int {
    if poll.ok then QUOTE_INTERVAL else ERROR_BACKOFF
  }

  lemma PassKeepsSchedule(st: FeedState, p: Pass, cap: nat)
    ensures var st' := AfterPass(st, p, cap);
      && st'.watched == st.watched
      && st'.backfilled == st.backfilled + (if Polls(st, p) then set s | s in st.watched else {})
      && (Due(st, p) ==> p.finished <= st'.nextPoll)
      && st.nextPoll + (if Polls(st, p) then IntervalOf(Poll(p.now, p.answer != map[])) else 0) <= st'.nextPoll
  {
    PreparingKeepsWatchList(st, p, st.watched, cap);
    hide PreparedAll;
  }

  /** What a run's last event adds to everything read off the run. */
  lemma LastFeedEvent(t0: int, events: seq<FeedEvent>, cap: nat)
    requires events != []
    ensures var earlier, e := events[..|events| - 1], events[|events| - 1];
      var st := RunFeed(t0, earlier, cap);
      && RunFeed(t0, events, cap) == After(st, e, cap)
      && PollsOf(t0, events, cap) == PollsOf(t0, earlier, cap) + PollIn(st, e)
      && BackfillsOf(t0, events, cap) == BackfillsOf(t0, earlier, cap) + BackfillsIn(st, e)
  {
    hide After;
    hide PollIn;
    hide BackfillsIn;
  }

  lemma NoFeedEvents(t0: int, cap: nat)
    ensures RunFeed(t0, [], cap) == Fresh(t0) && PollsOf(t0, [], cap) == [] && BackfillsOf(t0, [], cap) == []
  {
  }

  lemma {:induction false} PreparingKeepsWatchList(st: FeedState, p: Pass, symbols: seq<string>, cap: nat)
    ensures PreparedAll(st, p, symbols, cap).watched == st.watched
    ensures PreparedAll(st, p, symbols, cap).nextPoll == st.nextPoll
    ensures PreparedAll(st, p, symbols, cap).backfilled == st.backfilled + set s | s in symbols
  {
    if symbols != [] {
      PreparingKeepsWatchList(st, p, symbols[..|symbols| - 1], cap);
      assert symbols == symbols[..|symbols| - 1] + [symbols[|symbols| - 1]];
    }
  }

  /**
   A poll after k successful and m failed ones starts no earlier than t0 + k * 1s + m * 5s, and the
   next one is due no earlier than that either.
   */
  lemma {:induction false} PollsKeepTheirDistance(t0: int, events: seq<FeedEvent>, cap: nat)
    ensures var polls := PollsOf(t0, events, cap);
      && t0 + Spent(polls) <= RunFeed(t0, events, cap).nextPoll
      && forall i | 0 <= i < |polls| :: t0 + Spent(polls[..i]) <= polls[i].start
  {
    hide AfterPass;
    hide RunFeed;
    hide PollsOf;
    hide BackfillsOf;
    if events != [] {
      LastFeedEvent(t0, events, cap);
      hide Spent;
      var earlier, e := events[..|events| - 1], events[|events| - 1];
      var st, before := RunFeed(t0, earlier, cap), PollsOf(t0, earlier, cap);
      PollsKeepTheirDistance(t0, earlier, cap);
      if e.RunPass? {
        PassKeepsSchedule(st, e.p, cap);
      }
      if PollIn(st, e) == [] {
        assert PollsOf(t0, events, cap) == before;
      } else {
        OneMoreSpent(t0, before, PollIn(st, e)[0]);
      }
    } else {
      NoFeedEvents(t0, cap);
      NothingSpent();
    }
  }

  lemma NothingSpent()
    ensures Spent([]) == 0
  {
  }

  lemma OneMoreSpent(t0: int, polls: seq<Poll>, poll: Poll)
    requires forall i | 0 <= i < |polls| :: t0 + Spent(polls[..i]) <= polls[i].start
    requires t0 + Spent(polls) <= poll.start
    ensures Spent(polls + [poll]) == Spent(polls) + IntervalOf(poll)
    ensures var more := polls + [poll]; forall i | 0 <= i < |more| :: t0 + Spent(more[..i]) <= more[i].start
  {
    var more := polls + [poll];
    assert more[..|polls|] == polls;
    forall i | 0 <= i < |more| ensures t0 + Spent(more[..i]) <= more[i].start {
      assert more[..i] == polls[..i] && (i == |polls| ==> polls[..i] == polls);
    }
  }

  lemma {:induction false} SpentGrows(polls: seq<Poll>)
    ensures Intervals(|polls|) <= Spent(polls)
  {
    if polls != [] {
      SpentGrows(polls[..|polls| - 1]);
    }
  }

  /** At most one poll per second, plus one, has started by any time. */
  lemma PollsByTime(t0: int, events: seq<FeedEvent>, cap: nat, n: nat, t: int)
    requires n <= |PollsOf(t0, events, cap)| && t0 <= t
    requires forall i | 0 <= i < n :: PollsOf(t0, events, cap)[i].start <= t
    ensures n <= 1 + (t - t0) / QUOTE_INTERVAL
  {
    if n > 0 {
      var polls := PollsOf(t0, events, cap);
      PollsKeepTheirDistance(t0, events, cap);
      SpentGrows(polls[..n - 1]);
      assert t0 + Spent(polls[..n - 1]) <= polls[n - 1].start;
    }
  }

  /** However the polls fell, j - i polls later at least j - i - 1 full intervals have passed. */
  ghost predicate NeverBunched(polls: seq<Poll>) {
    forall i, j | 0 <= i < j < |polls| :: polls[i].start + Intervals(j - i - 1) <= polls[j].start
  }

  ghost predicate DueApart(polls: seq<Poll>, nextPoll: int) {
    forall i | 0 <= i < |polls| :: polls[i].start + Intervals(|polls| - i - 1) <= nextPoll
  }

  lemma OneMorePoll(polls: seq<Poll>, poll: Poll, due: int, nextPoll: int)
    requires NeverBunched(polls) && DueApart(polls, due)
    requires due <= poll.start <= nextPoll && due + QUOTE_INTERVAL <= nextPoll
    ensures NeverBunched(polls + [poll]) && DueApart(polls + [poll], nextPoll)
  {
  }

  /** A slow poll never causes a catch-up burst. */
  lemma {:induction false} NoCatchUpBurst(t0: int, events: seq<FeedEvent>, cap: nat)
    requires ClockAdvances(events)
    ensures NeverBunched(PollsOf(t0, events, cap))
    ensures DueApart(PollsOf(t0, events, cap), RunFeed(t0, events, cap).nextPoll)
  {
    hide AfterPass;
    hide RunFeed;
    hide PollsOf;
    hide BackfillsOf;
    if events != [] {
      LastFeedEvent(t0, events, cap);
      hide NeverBunched;
      var earlier, e := events[..|events| - 1], events[|events| - 1];
      var st, before := RunFeed(t0, earlier, cap), PollsOf(t0, earlier, cap);
      var st' := RunFeed(t0, events, cap);
      NoCatchUpBurst(t0, earlier, cap);
      if e.RunPass? {
        PassKeepsSchedule(st, e.p, cap);
      }
      if PollIn(st, e) == [] {
        assert PollsOf(t0, events, cap) == before;
      } else {
        OneMorePoll(before, PollIn(st, e)[0], st.nextPoll, st'.nextPoll);
      }
    } else {
      NoFeedEvents(t0, cap);
    }
  }

  lemma {:induction false} MissingIsWhatIsNotThere(symbols: seq<string>, have: set<string>)
    requires Distinct(symbols)
    ensures forall s :: s in Missing(symbols, have) <==> s in symbols && s !in have
    ensures Distinct(Missing(symbols, have))
  {
    if symbols != [] {
      MissingIsWhatIsNotThere(symbols[..|symbols| - 1], have);
      assert symbols == symbols[..|symbols| - 1] + [symbols[|symbols| - 1]];
    }
  }

  /** Each watched symbol is backfilled at most once in a session, whether or not bars came back. */
  lemma {:induction false} BackfilledOnce(t0: int, events: seq<FeedEvent>, cap: nat)
    ensures var st := RunFeed(t0, events, cap);
      && Distinct(st.watched) && Distinct(BackfillsOf(t0, events, cap))
      && forall s :: s in BackfillsOf(t0, events, cap) <==> s in st.backfilled
  {
    hide AfterPass;
    hide RunFeed;
    hide PollsOf;
    hide BackfillsOf;
    if events != [] {
      LastFeedEvent(t0, events, cap);
      var earlier, e := events[..|events| - 1], events[|events| - 1];
      var st := RunFeed(t0, earlier, cap);
      BackfilledOnce(t0, earlier, cap);
      if e.RunPass? {
        PassKeepsSchedule(st, e.p, cap);
        MissingIsWhatIsNotThere(st.watched, st.backfilled);
      }
      DistinctConcat(BackfillsOf(t0, earlier, cap), BackfillsIn(st, e));
    } else {
      NoFeedEvents(t0, cap);
    }
  }

  // ---------- deadlines and caches, exactly ----------

  /** A due pass sets the next deadline one second on, five after a failed poll, or to now if that has passed. */
  lemma PassSchedulesExactly(st: FeedState, p: Pass, cap: nat)
    ensures AfterPass(st, p, cap).nextPoll ==
      if p.now < st.nextPoll then st.nextPoll
      else
        var due := st.nextPoll + if st.watched != [] && p.answer == map[] then 5_000_000_000 else 1_000_000_000;
        if due >= p.finished then due else p.finished
  {
    PreparingKeepsWatchList(st, p, st.watched, cap);
    hide PreparedAll;
  }

  lemma {:induction false} PreparingKeepsQuotes(st: FeedState, p: Pass, symbols: seq<string>, cap: nat, s: string)
    ensures var st' := PreparedAll(st, p, symbols, cap);
      && st'.quotes == st.quotes
      && (s in st'.names <==> s in st.names || s in symbols)
      && (s in st'.names ==> st'.names[s] == if s in st.names then st.names[s] else NameOf(p, s))
  {
    if symbols != [] {
      PreparingKeepsQuotes(st, p, symbols[..|symbols| - 1], cap, s);
      assert symbols == symbols[..|symbols| - 1] + [symbols[|symbols| - 1]];
      hide Store.LastN;
    }
  }

  /** The newest answer a poll of the run has had for a symbol. */
  function LastAnswer(t0: int, events: seq<FeedEvent>, cap: nat, symbol: string): Option<Quote> {
    if events == [] then None
    else
      var earlier, e := events[..|events| - 1], events[|events| - 1];
      if e.RunPass? && Polls(RunFeed(t0, earlier, cap), e.p) && symbol in e.p.answer then Some(e.p.answer[symbol])
      else LastAnswer(t0, earlier, cap, symbol)
  }

  /** The name looked up by the first poll that finds a symbol watched. */
  function FirstName(t0: int, events: seq<FeedEvent>, cap: nat, symbol: string): Option<string> {
    if events == [] then None
    else
      var earlier, e := events[..|events| - 1], events[|events| - 1];
      var st := RunFeed(t0, earlier, cap);
      if FirstName(t0, earlier, cap, symbol).Some? then FirstName(t0, earlier, cap, symbol)
      else if e.RunPass? && Polls(st, e.p) && symbol in st.watched
      then Some(if symbol in e.p.assetNames then e.p.assetNames[symbol] else "")
      else None
  }

  ghost predicate Holds<V>(m: map<string, V>, s: string, v: Option<V>) {
    (s in m <==> v.Some?) && (s in m ==> m[s] == v.value)
  }

  lemma PassKeepsCaches(st: FeedState, p: Pass, cap: nat, s: string)
    ensures var st' := AfterPass(st, p, cap);
      if Polls(st, p) then
        && (s in st'.quotes <==> s in st.quotes || s in p.answer)
        && (s in st'.quotes ==> st'.quotes[s] == if s in p.answer then p.answer[s] else st.quotes[s])
        && (s in st'.names <==> s in st.names || s in st.watched)
        && (s in st'.names ==> st'.names[s] == if s in st.names then st.names[s] else NameOf(p, s))
      else st'.quotes == st.quotes && st'.names == st.names
  {
    PreparingKeepsQuotes(st, p, st.watched, cap, s);
    hide PreparedAll;
    hide Samples;
  }

  /** The poller's caches hold exactly the newest answer and the first name of each symbol. */
  lemma {:induction false} CachesHoldTheAnswers(t0: int, events: seq<FeedEvent>, cap: nat, symbol: string)
    ensures Holds(RunFeed(t0, events, cap).quotes, symbol, LastAnswer(t0, events, cap, symbol))
    ensures Holds(RunFeed(t0, events, cap).names, symbol, FirstName(t0, events, cap, symbol))
  {
    hide AfterPass;
    hide RunFeed;
    if events == [] {
      NoFeedEvents(t0, cap);
    } else {
      var earlier, e := events[..|events| - 1], events[|events| - 1];
      CachesHoldTheAnswers(t0, earlier, cap, symbol);
      LastFeedEvent(t0, events, cap);
      if e.RunPass? {
        PassKeepsCaches(RunFeed(t0, earlier, cap), e.p, cap, symbol);
      }
    }
  }

  /** What is watched is exactly what the run was told to watch. */
  lemma {:induction false} WatchedIff(t0: int, events: seq<FeedEvent>, cap: nat, symbol: string)
    ensures symbol in RunFeed(t0, events, cap).watched <==> Watch(symbol) in events
  {
    hide AfterPass;
    hide RunFeed;
    if events == [] {
      NoFeedEvents(t0, cap);
    } else {
      var earlier, e := events[..|events| - 1], events[|events| - 1];
      WatchedIff(t0, earlier, cap, symbol);
      LastFeedEvent(t0, events, cap);
      assert events == earlier + [e];
      if e.RunPass? {
        PassKeepsSchedule(RunFeed(t0, earlier, cap), e.p, cap);
      }
    }
  }

  // ---------- the sampled series ----------

  /** What one answered quote adds to a chart: the mid of both sides, else the one that is there. */
  function SampleOf(p: Pass, symbol: string): Store.Tape {
    if symbol !in p.answer then []
    else
      var q := p.answer[symbol];
      if q.bid > 0.0 && q.ask > 0.0 then [PricePoint(q.ts, 0.5 * (q.bid + q.ask))]
      else if q.bid > 0.0 then [PricePoint(q.ts, q.bid)]
      else if q.ask > 0.0 then [PricePoint(q.ts, q.ask)]
      else []
  }

  lemma SampleIsTheChartPrice(p: Pass, symbol: string)
    ensures SampleOf(p, symbol) ==
      if symbol in p.answer && ChartPrice(p.answer[symbol]) > 0.0
      then [PricePoint(p.answer[symbol].ts, ChartPrice(p.answer[symbol]))] else []
  {
  }

  /** What an event adds to a symbol's untrimmed series: its bars once, in front; a sample per poll, behind. */
  function SeriesAfter(st: FeedState, e: FeedEvent, symbol: string, series: Store.Tape): Store.Tape {
    if !e.RunPass? || !Polls(st, e.p) then series
    else
      (if symbol in st.watched && symbol !in st.backfilled then BarsOf(e.p, symbol) else [])
      + series + SampleOf(e.p, symbol)
  }

  function Series(t0: int, events: seq<FeedEvent>, cap: nat, symbol: string): Store.Tape {
    if events == [] then []
    else
      var earlier := events[..|events| - 1];
      SeriesAfter(RunFeed(t0, earlier, cap), events[|events| - 1], symbol, Series(t0, earlier, cap, symbol))
  }

  lemma {:induction false} PreparingPrependsBars(st: FeedState, p: Pass, symbols: seq<string>, cap: nat, s: string)
    ensures PreparedAll(st, p, symbols, cap).TapeOf(s)
      == if s in symbols && s !in st.backfilled then Store.LastN(cap, BarsOf(p, s) + st.TapeOf(s)) else st.TapeOf(s)
  {
    hide Store.LastN;
    if symbols != [] {
      var earlier := symbols[..|symbols| - 1];
      PreparingPrependsBars(st, p, earlier, cap, s);
      PreparingKeepsWatchList(st, p, earlier, cap);
      assert symbols == earlier + [symbols[|symbols| - 1]];
    }
  }

  lemma PrependThenAppend(cap: nat, bars: Store.Tape, series: Store.Tape, sample: Store.Tape)
    requires |sample| <= 1
    ensures var ready := if bars == [] then Store.LastN(cap, series)
                         else Store.LastN(cap, bars + Store.LastN(cap, series));
      (if sample == [] then ready else Store.LastN(cap, ready + sample)) == Store.LastN(cap, bars + series + sample)
  {
    hide Store.LastN;
    Store.PrependToTrimmed(cap, bars, series);
    assert [] + series == series;
    if sample == [] {
      assert bars + series + sample == bars + series;
    } else {
      assert sample == [sample[0]];
      Store.LastNOfAppend(cap, bars + series, sample[0]);
    }
  }

  lemma PassExtendsSeries(st: FeedState, p: Pass, cap: nat, s: string, series: Store.Tape)
    requires Polls(st, p) && st.TapeOf(s) == Store.LastN(cap, series)
    ensures AfterPass(st, p, cap).TapeOf(s) == Store.LastN(cap, SeriesAfter(st, RunPass(p), s, series))
  {
    hide Store.LastN;
    hide PreparedAll;
    var bars := if s in st.watched && s !in st.backfilled then BarsOf(p, s) else [];
    PreparingPrependsBars(st, p, st.watched, cap, s);
    SampleIsTheChartPrice(p, s);
    PrependThenAppend(cap, bars, series, SampleOf(p, s));
    LastNTwice(cap, series);
    assert [] + st.TapeOf(s) == st.TapeOf(s);
    if p.answer == map[] {
      assert SampleOf(p, s) == [];
    }
  }

  lemma LastNTwice(cap: nat, series: Store.Tape)
    ensures Store.LastN(cap, Store.LastN(cap, series)) == Store.LastN(cap, series)
  {
  }

  lemma {:induction false} TapeIsTheSeries(t0: int, events: seq<FeedEvent>, cap: nat, symbol: string)
    ensures RunFeed(t0, events, cap).TapeOf(symbol) == Store.LastN(cap, Series(t0, events, cap, symbol))
  {
    if events != [] {
      var earlier, e := events[..|events| - 1], events[|events| - 1];
      var st := RunFeed(t0, earlier, cap);
      TapeIsTheSeries(t0, earlier, cap, symbol);
      if e.RunPass? && Polls(st, e.p) {
        PassExtendsSeries(st, e.p, cap, symbol, Series(t0, earlier, cap, symbol));
        hide AfterPass;
      }
      hide Store.LastN;
    }
  }

  /** The bars of the first poll that finds the symbol watched; none before, and never any more after. */
  function Bars(t0: int, events: seq<FeedEvent>, cap: nat, symbol: string): Store.Tape {
    if events == [] then []
    else
      var earlier, e := events[..|events| - 1], events[|events| - 1];
      var st := RunFeed(t0, earlier, cap);
      if e.RunPass? && Polls(st, e.p) && symbol in st.watched && symbol !in st.backfilled
      then (if symbol in e.p.bars then e.p.bars[symbol] else [])
      else Bars(t0, earlier, cap, symbol)
  }

  /** The sample of each poll, in poll order; a failed poll has none. */
  function SamplesOf(t0: int, events: seq<FeedEvent>, cap: nat, symbol: string): Store.Tape {
    if events == [] then []
    else
      var earlier, e := events[..|events| - 1], events[|events| - 1];
      SamplesOf(t0, earlier, cap, symbol)
      + if e.RunPass? && Polls(RunFeed(t0, earlier, cap), e.p) then SampleOf(e.p, symbol) else []
  }

  lemma {:induction false} SeriesInParts(t0: int, events: seq<FeedEvent>, cap: nat, symbol: string)
    ensures Series(t0, events, cap, symbol) == Bars(t0, events, cap, symbol) + SamplesOf(t0, events, cap, symbol)
    ensures symbol !in RunFeed(t0, events, cap).backfilled ==> Bars(t0, events, cap, symbol) == []
  {
    hide AfterPass;
    hide SampleOf;
    hide RunFeed;
    if events == [] {
      NoFeedEvents(t0, cap);
    } else {
      var earlier, e := events[..|events| - 1], events[|events| - 1];
      var st := RunFeed(t0, earlier, cap);
      SeriesInParts(t0, earlier, cap, symbol);
      LastFeedEvent(t0, events, cap);
      if e.RunPass? {
        PassKeepsSchedule(st, e.p, cap);
      }
      SeriesStep(t0, events, cap, symbol);
    }
  }

  lemma SeriesStep(t0: int, events: seq<FeedEvent>, cap: nat, symbol: string)
    requires events != []
    requires var earlier := events[..|events| - 1];
      && Series(t0, earlier, cap, symbol) == Bars(t0, earlier, cap, symbol) + SamplesOf(t0, earlier, cap, symbol)
      && (symbol !in RunFeed(t0, earlier, cap).backfilled ==> Bars(t0, earlier, cap, symbol) == [])
    ensures Series(t0, events, cap, symbol) == Bars(t0, events, cap, symbol) + SamplesOf(t0, events, cap, symbol)
  {
    hide RunFeed;
    hide SampleOf;
    hide Polls;
    var earlier, e := events[..|events| - 1], events[|events| - 1];
    var st := RunFeed(t0, earlier, cap);
    var bars, samples := Bars(t0, earlier, cap, symbol), SamplesOf(t0, earlier, cap, symbol);
    if e.RunPass? && Polls(st, e.p) {
      AppendTo(if symbol in st.watched && symbol !in st.backfilled then BarsOf(e.p, symbol) else bars, samples,
               SampleOf(e.p, symbol));
      AppendTo(bars, samples, SampleOf(e.p, symbol));
    } else {
      AppendTo(bars, samples, []);
    }
  }

  lemma AppendTo(a: Store.Tape, b: Store.Tape, c: Store.Tape)
    ensures a + b + c == a + (b + c) && [] + b == b && b + [] == b && [] + (a + b) + c == a + (b + c)
  {
  }

  /**
   A stock's charted series is the newest part of its one block of bars followed by every live
   sample, in poll order: the backfill displaces nothing live, and a failed poll adds nothing.
   */
  lemma SeriesIsBarsThenSamples(t0: int, events: seq<FeedEvent>, cap: nat, symbol: string)
    ensures RunFeed(t0, events, cap).TapeOf(symbol)
         == Store.LastN(cap, Bars(t0, events, cap, symbol) + SamplesOf(t0, events, cap, symbol))
  {
    TapeIsTheSeries(t0, events, cap, symbol);
    SeriesInParts(t0, events, cap, symbol);
    hide RunFeed;
    hide Store.LastN;
  }

  /**
   With sorted bars a stock's series is in time order exactly when the samples it still holds are,
   and the last bar is no newer than the first sample or the samples have displaced the bars.
   */
  lemma SeriesSortedIff(t0: int, events: seq<FeedEvent>, cap: nat, symbol: string)
    requires Store.Sorted(Bars(t0, events, cap, symbol))
    ensures var bars, samples := Bars(t0, events, cap, symbol), SamplesOf(t0, events, cap, symbol);
      Store.Sorted(RunFeed(t0, events, cap).TapeOf(symbol)) <==>
        && Store.Sorted(Store.LastN(cap, samples))
        && (|samples| < cap && bars != [] && samples != [] ==> bars[|bars| - 1].ts <= samples[0].ts)
  {
    hide Store.Sorted;
    hide Store.LastN;
    hide RunFeed;
    hide Bars;
    hide SamplesOf;
    SeriesIsBarsThenSamples(t0, events, cap, symbol);
    Store.TrimmedSortedIff(Bars(t0, events, cap, symbol), SamplesOf(t0, events, cap, symbol), cap);
  }

  /** A pass that backfills one bar at time 100 and is answered with a quote stamped 50. */
  function StaleQuotePass(): Pass {
    Pass(0, 0, map["A" := [PricePoint(100, 1.0)]], map[], map["A" := Quote("A", 1.0, 1.0, 0.0, 0.0, 50)])
  }

  /** A vendor quote older than the last bar leaves the series out of order. */
  lemma StaleQuoteLeavesTheSeriesUnsorted()
    ensures !Store.Sorted(RunFeed(0, [Watch("A"), RunPass(StaleQuotePass())], 10).TapeOf("A"))
  {
    var w, r := Watch("A"), RunPass(StaleQuotePass());
    assert [w, r][..1] == [w] && [w][..0] == [];
    assert RunFeed(0, [w], 10) == Watched(Fresh(0), "A");
    assert Bars(0, [w, r], 10, "A") == BarsOf(r.p, "A");
    assert SamplesOf(0, [w], 10, "A") == [];
    assert SamplesOf(0, [w, r], 10, "A") == [] + SampleOf(r.p, "A");
    hide RunFeed;
    hide Bars;
    hide SamplesOf;
    SeriesSortedIff(0, [w, r], 10, "A");
  }
}
