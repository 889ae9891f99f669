/**
 The feed handler's buffers: ticks are appended, handed to the publisher in batches, and none is
 lost or repeated; what changes when a publish call raises is stated exactly.
 */
module Batching {
  import opened Sequences

  /** Trades and quotes are opaque here; only their order and number matter. */
  datatype Buffers<T, Q> = Buffers(trades: seq<T>, quotes: seq<Q>,
                                   tradeBatches: seq<seq<T>>, quoteBatches: seq<seq<Q>>,
                                   totalTrades: nat, totalQuotes: nat)

  /** Whether the publisher's trade call and its quote call would raise during a flush. */
  datatype Luck = Luck(tradesRaise: bool, quotesRaise: bool)

  /** Swap out and ship the trades, then the quotes; a raise abandons the rest of the flush. */
  function Flushed<T, Q>(b: Buffers<T, Q>, luck: Luck): Buffers<T, Q> {
    var b1 := if b.trades == [] then b
              else b.(trades := [], tradeBatches := b.tradeBatches + [b.trades],
                      totalTrades := b.totalTrades + if luck.tradesRaise then 0 else |b.trades|);
    if (b.trades != [] && luck.tradesRaise) || b.quotes == [] then b1
    else b1.(quotes := [], quoteBatches := b.quoteBatches + [b.quotes],
             totalQuotes := b.totalQuotes + if luck.quotesRaise then 0 else |b.quotes|)
  }

  datatype Event<T, Q> = EmitTrade(trade: T, luck: Luck)
                       | EmitQuote(quote: Q, luck: Luck)
                       | Timer(luck: Luck)

  function After<T, Q>(b: Buffers<T, Q>, e: Event<T, Q>, maxBuffer: nat): Buffers<T, Q> {
    match e
    case EmitTrade(t, luck) =>
      var b1 := b.(trades := b.trades + [t]);
      if |b1.trades| >= maxBuffer then Flushed(b1, luck) else b1
    case EmitQuote(q, luck) =>
      var b1 := b.(quotes := b.quotes + [q]);
      if |b1.quotes| >= maxBuffer then Flushed(b1, luck) else b1
    case Timer(luck) => Flushed(b, luck)
  }

  function Run<T, Q>(events: seq<Event<T, Q>>, maxBuffer: nat): Buffers<T, Q> {
    if events == [] then Buffers([], [], [], [], 0, 0)
    else After(Run(events[..|events| - 1], maxBuffer), events[|events| - 1], maxBuffer)
  }

  function EmittedTrades<T, Q>(events: seq<Event<T, Q>>): seq<T> {
    if events == [] then []
    else
      var e := events[|events| - 1];
      EmittedTrades(events[..|events| - 1]) + if e.EmitTrade? then [e.trade] else []
  }

  function EmittedQuotes<T, Q>(events: seq<Event<T, Q>>): seq<Q> {
    if events == [] then []
    else
      var e := events[|events| - 1];
      EmittedQuotes(events[..|events| - 1]) + if e.EmitQuote? then [e.quote] else []
  }

  // ---------- conservation, whatever raises ----------

  lemma FlushConserves<T, Q>(b: Buffers<T, Q>, luck: Luck)
    ensures var b' := Flushed(b, luck);
      && Concat(b'.tradeBatches) + b'.trades == Concat(b.tradeBatches) + b.trades
      && Concat(b'.quoteBatches) + b'.quotes == Concat(b.quoteBatches) + b.quotes
  {
    ConcatAppend(b.tradeBatches, b.trades);
    ConcatAppend(b.quoteBatches, b.quotes);
    assert Concat(b.tradeBatches) + b.trades + [] == Concat(b.tradeBatches) + b.trades;
    assert Concat(b.quoteBatches) + b.quotes + [] == Concat(b.quoteBatches) + b.quotes;
    hide Concat;
  }

  function Handed<T, Q>(b: Buffers<T, Q>): (seq<T>, seq<Q>) {
    (Concat(b.tradeBatches) + b.trades, Concat(b.quoteBatches) + b.quotes)
  }

  lemma EventConserves<T, Q>(b: Buffers<T, Q>, e: Event<T, Q>, maxBuffer: nat)
    ensures Handed(After(b, e, maxBuffer)).0 == Handed(b).0 + if e.EmitTrade? then [e.trade] else []
    ensures Handed(After(b, e, maxBuffer)).1 == Handed(b).1 + if e.EmitQuote? then [e.quote] else []
  {
    hide Flushed;
    hide Concat;
    match e
    case EmitTrade(t, luck) =>
      FlushConserves(b.(trades := b.trades + [t]), luck);
      assert Concat(b.tradeBatches) + (b.trades + [t]) == Concat(b.tradeBatches) + b.trades + [t];
    case EmitQuote(q, luck) =>
      FlushConserves(b.(quotes := b.quotes + [q]), luck);
      assert Concat(b.quoteBatches) + (b.quotes + [q]) == Concat(b.quoteBatches) + b.quotes + [q];
    case Timer(luck) => FlushConserves(b, luck);
  }

  /** Batches handed over, then the live buffer, are exactly what was emitted, kind by kind. */
  lemma {:induction false} NothingLostOrRepeated<T, Q>(events: seq<Event<T, Q>>, maxBuffer: nat)
    ensures Handed(Run(events, maxBuffer)) == (EmittedTrades(events), EmittedQuotes(events))
  {
    if events != [] {
      hide After;
      NothingLostOrRepeated(events[..|events| - 1], maxBuffer);
      EventConserves(Run(events[..|events| - 1], maxBuffer), events[|events| - 1], maxBuffer);
    } else {
      assert Handed(Run(events, maxBuffer)).0 == [] && Handed(Run(events, maxBuffer)).1 == [];
    }
  }

  // ---------- bounds and totals ----------

  ghost predicate Bounded<T, Q>(b: Buffers<T, Q>, maxBuffer: nat) {
    |b.trades| < maxBuffer && |b.quotes| < maxBuffer
  }

  /** A quote fills its buffer, but the trades shipped ahead of it raise. */
  predicate StrandsQuotes<T, Q>(b: Buffers<T, Q>, e: Event<T, Q>, maxBuffer: nat) {
    e.EmitQuote? && |b.quotes| + 1 >= maxBuffer && b.trades != [] && e.luck.tradesRaise
  }

  /** An event keeps both buffers below the bound exactly when it does not strand a full quote buffer. */
  lemma BoundKeptIff<T, Q>(b: Buffers<T, Q>, e: Event<T, Q>, maxBuffer: nat)
    requires maxBuffer >= 1 && Bounded(b, maxBuffer)
    ensures Bounded(After(b, e, maxBuffer), maxBuffer) <==> !StrandsQuotes(b, e, maxBuffer)
  {
  }

  /** The trade buffer is always below the bound, and only a stranding event grows the quotes past it. */
  lemma OverrunStep<T, Q>(b: Buffers<T, Q>, e: Event<T, Q>, maxBuffer: nat, over: nat)
    requires maxBuffer >= 1 && |b.trades| < maxBuffer && |b.quotes| < maxBuffer + over
    ensures var b' := After(b, e, maxBuffer);
      && |b'.trades| < maxBuffer
      && |b'.quotes| < maxBuffer + over + if StrandsQuotes(b, e, maxBuffer) then 1 else 0
  {
  }

  ghost predicate Counted<T, Q>(b: Buffers<T, Q>) {
    b.totalTrades == |Concat(b.tradeBatches)| && b.totalQuotes == |Concat(b.quoteBatches)|
  }

  ghost predicate CountsNoMore<T, Q>(b: Buffers<T, Q>) {
    b.totalTrades <= |Concat(b.tradeBatches)| && b.totalQuotes <= |Concat(b.quoteBatches)|
  }

  /** A publish call of the flush raises on a batch that has been swapped out. */
  predicate FlushMisses<T, Q>(b: Buffers<T, Q>, luck: Luck) {
    (b.trades != [] && luck.tradesRaise) || (b.quotes != [] && luck.quotesRaise)
  }

  predicate Misses<T, Q>(b: Buffers<T, Q>, e: Event<T, Q>, maxBuffer: nat) {
    match e
    case EmitTrade(t, luck) => |b.trades| + 1 >= maxBuffer && FlushMisses(b.(trades := b.trades + [t]), luck)
    case EmitQuote(q, luck) => |b.quotes| + 1 >= maxBuffer && FlushMisses(b.(quotes := b.quotes + [q]), luck)
    case Timer(luck) => FlushMisses(b, luck)
  }

  lemma FlushCountsIff<T, Q>(b: Buffers<T, Q>, luck: Luck)
    requires CountsNoMore(b)
    ensures CountsNoMore(Flushed(b, luck))
    ensures Counted(Flushed(b, luck)) <==> Counted(b) && !FlushMisses(b, luck)
  {
    ConcatAppend(b.tradeBatches, b.trades);
    ConcatAppend(b.quoteBatches, b.quotes);
    hide Concat;
  }

  /** Once a batch is missed the totals never match again; until then every event keeps them matching. */
  lemma CountsKeptIff<T, Q>(b: Buffers<T, Q>, e: Event<T, Q>, maxBuffer: nat)
    requires CountsNoMore(b)
    ensures CountsNoMore(After(b, e, maxBuffer))
    ensures Counted(After(b, e, maxBuffer)) <==> Counted(b) && !Misses(b, e, maxBuffer)
  {
    hide Flushed;
    hide Concat;
    hide FlushMisses;
    match e
    case EmitTrade(t, luck) => FlushCountsIff(b.(trades := b.trades + [t]), luck);
    case EmitQuote(q, luck) => FlushCountsIff(b.(quotes := b.quotes + [q]), luck);
    case Timer(luck) => FlushCountsIff(b, luck);
  }
}
