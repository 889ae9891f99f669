/** The stock poller itself: one method per pass of its loop, over its in-place caches. */
module StockFeeds {
  import opened Types
  import opened Polling
  import Store

  class StockFeed {
    const historyCap: nat
    var nextPoll: int
    var symbols: seq<string>
    var quotes: map<string, Quote>
    var tapes: map<string, Store.Tape>
    var names: map<string, string>
    var backfilled: set<string>

    function State(): FeedState
      reads this
    {
      FeedState(nextPoll, symbols, quotes, tapes, names, backfilled)
    }

    constructor (historyCap: nat, now: int)
      ensures this.historyCap == historyCap && State() == Fresh(now)
    {
      this.historyCap := historyCap;
      nextPoll := now;
      symbols, backfilled := [], {};
      quotes, tapes, names := map[], map[], map[];
    }

    method WatchSymbol(symbol: string)
      modifies this
      ensures State() == Watched(old(State()), symbol)
    {
      if symbol !in symbols {
        symbols := symbols + [symbol];
      }
    }

    /** Advances from the deadline, not from the finish, unless the poll overran it. */
    method ScheduleNext(interval: int, now: int)
      modifies this`nextPoll
      ensures nextPoll == Scheduled(old(nextPoll), interval, now)
    {
      nextPoll := nextPoll + interval;
      if nextPoll < now {
        nextPoll := now;
      }
    }

    /** One pass of the polling loop. */
    method RunOnce(p: Pass)
      modifies this
      ensures State() == AfterPass(old(State()), p, historyCap)
    {
      if p.now < nextPoll {
        return;
      }
      var syms := symbols;
      if syms == [] {
        ScheduleNext(QUOTE_INTERVAL, p.finished);
        return;
      }
      ghost var start := State();
      for i := 0 to |syms|
        invariant State() == PreparedAll(start, p, syms[..i], historyCap)
      {
        assert syms[..i + 1][..i] == syms[..i];
        Prepare(p, syms[i]);
      }
      assert syms[..|syms|] == syms;
      PreparingKeepsWatchList(start, p, syms, historyCap);
      if p.answer == map[] {
        ScheduleNext(ERROR_BACKOFF, p.finished);
        return;
      }
      RecordAnswer(p.answer);
      ScheduleNext(QUOTE_INTERVAL, p.finished);
    }

    /** First sight of a symbol: prepend its bars to whatever was sampled, and cache its name. */
    method Prepare(p: Pass, sym: string)
      modifies this
      ensures State() == Prepared(old(State()), p, sym, historyCap)
    {
      if sym !in backfilled {
        backfilled := backfilled + {sym};
        var h := if sym in tapes then tapes[sym] else [];
        h := Store.TrimFront(BarsOf(p, sym) + h, historyCap);
        tapes := tapes[sym := h];
      }
      if sym !in names {
        names := names[sym := NameOf(p, sym)];
      }
    }

    /** Stores every answered quote and samples its chart price once. */
    method RecordAnswer(answer: map<string, Quote>)
      modifies this`quotes, this`tapes
      ensures State() == Answered(old(State()), answer, historyCap)
    {
      hide Answered;
      ghost var ready := State();
      ghost var done: map<string, Quote> := map[];
      var rest := answer.Keys;
      NothingAnswered(ready, historyCap);
      while rest != {}
        invariant done.Keys == answer.Keys - rest && rest <= answer.Keys
        invariant forall s | s in done :: done[s] == answer[s]
        invariant State() == Answered(ready, done, historyCap)
      {
        var sym :| sym in rest;
        var q := answer[sym];
        AnswerOneMore(ready, done, sym, q, historyCap);
        done := done[sym := q];
        rest := rest - {sym};

        quotes := quotes[sym := q];
        var px := ChartPrice(q);
        if px > 0.0 {
          var h := if sym in tapes then tapes[sym] else [];
          h := Store.TrimFront(h + [PricePoint(q.ts, px)], historyCap);
          tapes := tapes[sym := h];
        }
      }
      assert done == answer;
    }

    static lemma NothingAnswered(ready: FeedState, cap: nat)
      ensures Answered(ready, map[], cap) == ready
    {
      assert Samples(ready, map[], cap) == map[];
      assert ready.history + map[] == ready.history;
      assert ready.quotes + map[] == ready.quotes;
    }

    static lemma AnswerOneMore(ready: FeedState, done: map<string, Quote>, sym: string, q: Quote, cap: nat)
      requires sym !in done
      ensures var before, px := Answered(ready, done, cap), ChartPrice(q);
        Answered(ready, done[sym := q], cap)
          == before.(quotes := before.quotes[sym := q],
                     history := if px <= 0.0 then before.history
                                else before.history[sym := Store.LastN(cap, before.TapeOf(sym)
                                                                            + [PricePoint(q.ts, px)])])
    {
      hide ChartPrice;
      hide Store.LastN;
      hide Samples;
      MergeOneMore(ready.quotes, done, sym, q);
      SamplesOneMore(ready, done, sym, q, cap);
      if ChartPrice(q) > 0.0 {
        MergeOneMore(ready.history, Samples(ready, done, cap), sym,
                     Store.LastN(cap, ready.TapeOf(sym) + [PricePoint(q.ts, ChartPrice(q))]));
      }
    }

    static lemma MergeOneMore<V>(base: map<string, V>, m: map<string, V>, k: string, v: V)
      ensures base + m[k := v] == (base + m)[k := v]
    {
    }

    static lemma SamplesOneMore(ready: FeedState, done: map<string, Quote>, sym: string, q: Quote, cap: nat)
      requires sym !in done
      ensures sym !in Samples(ready, done, cap)
      ensures Samples(ready, done[sym := q], cap) ==
        if ChartPrice(q) > 0.0
        then Samples(ready, done, cap)
               [sym := Store.LastN(cap, ready.TapeOf(sym) + [PricePoint(q.ts, ChartPrice(q))])]
        else Samples(ready, done, cap)
    {
      hide ChartPrice;
      hide Store.LastN;
    }
  }
}
