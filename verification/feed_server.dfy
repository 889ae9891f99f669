/** The terminal's end of the feed socket: cuts lines, decodes them and updates the store. */
module FeedServers {
  import opened Types
  import opened Sequences
  import opened Framing
  import opened Messages
  import opened MarketStores
  import Store

  /** What a poll is answered with: symbols to stream, symbols to backfill. */
  datatype PollReply = PollReply(symbols: seq<string>, history: seq<string>)

  /** The store, and the replies sent back so far. */
  datatype Served = Served(store: Store.StoreState, replies: seq<PollReply>)

  type Decoder = Bytes -> Option<Message>

  /** A message updates the store; a poll also sends back both queues as they were. */
  function MessageServed(s: Served, m: Message, cap: nat): Served {
    Served(Handled(s.store, m, cap),
           if m.PollRequests? then s.replies + [PollReply(s.store.requested, s.store.historyRequests)] else s.replies)
  }

  function MessagesServed(s: Served, messages: seq<Message>, cap: nat): Served {
    if messages == [] then s
    else MessageServed(MessagesServed(s, messages[..|messages| - 1], cap), messages[|messages| - 1], cap)
  }

  function LineHandled(s: Served, line: Bytes, decode: Decoder, cap: nat): Served {
    if line == [] then s
    else match decode(line)
      case Some(m) => MessageServed(s, m, cap)
      case None => s
  }

  function LinesHandled(s: Served, lines: seq<Bytes>, decode: Decoder, cap: nat): Served {
    if lines == [] then s
    else LineHandled(LinesHandled(s, lines[..|lines| - 1], decode, cap), lines[|lines| - 1], decode, cap)
  }

  lemma {:induction false} HandledInParts(s: Served, a: seq<Bytes>, b: seq<Bytes>, decode: Decoder, cap: nat)
    ensures LinesHandled(s, a + b, decode, cap)
         == LinesHandled(LinesHandled(s, a, decode, cap), b, decode, cap)
  {
    hide LineHandled;
    if b == [] {
      assert a + b == a;
    } else {
      HandledInParts(s, a, b[..|b| - 1], decode, cap);
      assert (a + b)[..|a + b| - 1] == a + b[..|b| - 1];
    }
  }

  // ---------- polls hand out each request once ----------

  /** A poll is answered with everything that waits, leaves nothing waiting, and alone is answered. */
  lemma PollsEmptyTheQueues(s: Served, m: Message, cap: nat)
    ensures var s' := MessageServed(s, m, cap);
      if m == PollRequests then
        && s'.replies == s.replies + [PollReply(s.store.requested, s.store.historyRequests)]
        && s'.store == s.store.(requested := [], historyRequests := [])
      else s'.replies == s.replies
  {
    hide Handled;
    if m == PollRequests {
      PollHandled(s.store, cap);
    }
  }

  lemma PollHandled(st: Store.StoreState, cap: nat)
    ensures Handled(st, PollRequests, cap) == st.(requested := [], historyRequests := [])
  {
  }

  function SymbolsIn(replies: seq<PollReply>): seq<string> {
    if replies == [] then [] else SymbolsIn(replies[..|replies| - 1]) + replies[|replies| - 1].symbols
  }

  function HistoryIn(replies: seq<PollReply>): seq<string> {
    if replies == [] then [] else HistoryIn(replies[..|replies| - 1]) + replies[|replies| - 1].history
  }

  lemma {:induction false} RowsLeaveRequests(st: Store.StoreState, m: Message, cap: nat)
    requires !m.PollRequests?
    ensures Handled(st, m, cap).requested == st.requested
    ensures Handled(st, m, cap).historyRequests == st.historyRequests
    decreases if m.Quotes? then |m.rows| else if m.Trades? then |m.prints| else 0
  {
    match m
    case Quotes(rows) => if rows != [] { RowsLeaveRequests(st, Quotes(rows[..|rows| - 1]), cap); }
    case Trades(rows) => if rows != [] { RowsLeaveRequests(st, Trades(rows[..|rows| - 1]), cap); }
    case _ =>
  }

  lemma MessageConservesRequests(s: Served, m: Message, cap: nat)
    ensures var s' := MessageServed(s, m, cap);
      && SymbolsIn(s'.replies) + s'.store.requested == SymbolsIn(s.replies) + s.store.requested
      && HistoryIn(s'.replies) + s'.store.historyRequests == HistoryIn(s.replies) + s.store.historyRequests
  {
    if m.PollRequests? {
      var s' := MessageServed(s, m, cap);
      assert s'.replies[..|s.replies|] == s.replies;
      assert SymbolsIn(s'.replies) + [] == SymbolsIn(s'.replies);
      assert HistoryIn(s'.replies) + [] == HistoryIn(s'.replies);
    } else {
      RowsLeaveRequests(s.store, m, cap);
    }
  }

  /** Whatever lines arrive, what replies carried away and what still waits stay the same requests, in order. */
  lemma {:induction false} PollsConserveRequests(s: Served, lines: seq<Bytes>, decode: Decoder, cap: nat)
    ensures var s' := LinesHandled(s, lines, decode, cap);
      && SymbolsIn(s'.replies) + s'.store.requested == SymbolsIn(s.replies) + s.store.requested
      && HistoryIn(s'.replies) + s'.store.historyRequests == HistoryIn(s.replies) + s.store.historyRequests
  {
    if lines != [] {
      hide MessageServed;
      var before, line := LinesHandled(s, lines[..|lines| - 1], decode, cap), lines[|lines| - 1];
      PollsConserveRequests(s, lines[..|lines| - 1], decode, cap);
      if line != [] && decode(line).Some? {
        MessageConservesRequests(before, decode(line).value, cap);
      }
    }
  }

  // ---------- the codec and the link ----------

  type Encoder = Message -> Bytes

  function EncodedLines(messages: seq<Message>, encode: Encoder): seq<Bytes> {
    seq(|messages|, i requires 0 <= i < |messages| => encode(messages[i]))
  }

  /** The codec writes one non-empty line per message and reads it back. */
  ghost predicate Faithful(messages: seq<Message>, encode: Encoder, decode: Decoder) {
    forall i | 0 <= i < |messages| ::
      var line := encode(messages[i]);
      line != [] && NEWLINE !in line && decode(line) == Some(messages[i])
  }

  lemma {:induction false} DecodedLines(s: Served, messages: seq<Message>, encode: Encoder,
                                        decode: Decoder, cap: nat)
    requires Faithful(messages, encode, decode)
    ensures LinesHandled(s, EncodedLines(messages, encode), decode, cap) == MessagesServed(s, messages, cap)
  {
    hide MessageServed;
    if messages != [] {
      hide LinesHandled;
      hide LineHandled;
      var earlier, last := messages[..|messages| - 1], messages[|messages| - 1];
      forall i | 0 <= i < |earlier|
        ensures var line := encode(earlier[i]);
          line != [] && NEWLINE !in line && decode(line) == Some(earlier[i])
      {
        assert earlier[i] == messages[i];
      }
      DecodedLines(s, earlier, encode, decode, cap);
      assert EncodedLines(messages, encode) == EncodedLines(earlier, encode) + [encode(last)];
      OneMoreLine(s, EncodedLines(earlier, encode), encode(last), last, decode, cap);
    } else {
      assert EncodedLines(messages, encode) == [];
      NoLines(s, decode, cap);
    }
  }

  lemma NoLines(s: Served, decode: Decoder, cap: nat)
    ensures LinesHandled(s, [], decode, cap) == s
  {
  }

  lemma OneMoreLine(s: Served, lines: seq<Bytes>, line: Bytes, m: Message, decode: Decoder, cap: nat)
    requires line != [] && decode(line) == Some(m)
    ensures LinesHandled(s, lines + [line], decode, cap) == MessageServed(LinesHandled(s, lines, decode, cap), m, cap)
  {
    hide MessageServed;
    assert (lines + [line])[..|lines|] == lines;
  }

  lemma {:induction false} ServedStoreIsHandled(s: Served, messages: seq<Message>, cap: nat)
    ensures MessagesServed(s, messages, cap).store == HandledAll(s.store, messages, cap)
  {
    if messages != [] {
      hide Handled;
      ServedStoreIsHandled(s, messages[..|messages| - 1], cap);
    }
  }

  /** Messages written as lines and received in any chunks are served as if passed one by one. */
  lemma LinkDeliversMessages(s: Served, messages: seq<Message>, chunks: seq<Bytes>,
                             encode: Encoder, decode: Decoder, cap: nat)
    requires Faithful(messages, encode, decode)
    requires Concat(chunks) == Encoded(EncodedLines(messages, encode))
    ensures LinesHandled(s, Lines(Concat(chunks)), decode, cap) == MessagesServed(s, messages, cap)
    ensures LinesHandled(s, Lines(Concat(chunks)), decode, cap).store == HandledAll(s.store, messages, cap)
    ensures Tail(Concat(chunks)) == []
  {
    AnyChunkingDeliversTheMessages(EncodedLines(messages, encode), chunks);
    DecodedLines(s, messages, encode, decode, cap);
    ServedStoreIsHandled(s, messages, cap);
  }

  /** What a connection yields: an empty read is the peer closing it. */
  function UntilClosed(chunks: seq<Bytes>): seq<Bytes> {
    if chunks == [] || chunks[0] == [] then [] else [chunks[0]] + UntilClosed(chunks[1..])
  }

  lemma {:induction false} ClosedAt(chunks: seq<Bytes>, k: nat)
    requires k <= |chunks| && (forall i | 0 <= i < k :: chunks[i] != [])
    requires k == |chunks| || chunks[k] == []
    ensures UntilClosed(chunks) == chunks[..k]
  {
    if k > 0 {
      ClosedAt(chunks[1..], k - 1);
      assert [chunks[0]] + chunks[1..][..k - 1] == chunks[..k];
    }
  }

  class FeedServer {
    const store: MarketStore
    const decode: Decoder
    var replies: seq<PollReply>

    constructor (store: MarketStore, decode: Decoder)
      ensures this.store == store && this.decode == decode && replies == []
    {
      this.store, this.decode, replies := store, decode, [];
    }

    method ApplyQuotes(rows: seq<Quote>)
      modifies store
      ensures store.State() == OnQuotes(old(store.State()), rows)
    {
      ghost var before := store.State();
      for i := 0 to |rows|
        invariant store.State() == OnQuotes(before, rows[..i])
      {
        assert rows[..i + 1][..i] == rows[..i];
        store.OnQuoteUpdate(rows[i]);
      }
      assert rows[..|rows|] == rows;
    }

    method ApplyTrades(rows: seq<TradeRow>)
      modifies store
      ensures store.State() == OnTrades(old(store.State()), rows, store.historyCap)
    {
      ghost var before := store.State();
      for i := 0 to |rows|
        invariant store.State() == OnTrades(before, rows[..i], store.historyCap)
      {
        assert rows[..i + 1][..i] == rows[..i];
        store.OnTradePrint(rows[i].symbol, rows[i].price, rows[i].ts);
      }
      assert rows[..|rows|] == rows;
    }

    function State(): Served
      reads this, store
    {
      Served(store.State(), replies)
    }

    method HandleMessage(m: Message)
      modifies this, store
      ensures State() == MessageServed(old(State()), m, store.historyCap)
    {
      match m
      case Quotes(rows) => ApplyQuotes(rows);
      case Trades(rows) => ApplyTrades(rows);
      case HistoryOf(symbol, points) => store.BackfillHistory(symbol, points);
      case Products(ids) => store.SetProducts(ids);
      case Universe(ids) => store.SetUniverse(ids);
      case Names(names) => store.SetNames(names);
      case PollRequests =>
        var symbols := store.TakeRequested();
        var history := store.TakeHistoryRequests();
        replies := replies + [PollReply(symbols, history)];
    }

    /** An empty or malformed line changes nothing. */
    method HandleLine(line: Bytes)
      modifies this, store
      ensures State() == LineHandled(old(State()), line, decode, store.historyCap)
    {
      hide MessageServed;
      if line == [] {
        return;
      }
      var m := decode(line);
      if m.Some? {
        HandleMessage(m.value);
      }
    }

    method HandleLines(lines: seq<Bytes>)
      modifies this, store
      ensures State() == LinesHandled(old(State()), lines, decode, store.historyCap)
    {
      hide LineHandled;
      ghost var before := State();
      for i := 0 to |lines|
        invariant State() == LinesHandled(before, lines[..i], decode, store.historyCap)
      {
        assert lines[..i + 1][..i] == lines[..i];
        HandleLine(lines[i]);
      }
      assert lines[..|lines|] == lines;
    }

    static lemma NothingReceived(s: Served, decode: Decoder, cap: nat)
      ensures Concat<byte>([]) == [] && LinesHandled(s, [], decode, cap) == s
    {
    }

    /** One connection: appends each chunk, hands on its complete lines, keeps the unfinished tail. */
    method Serve(chunks: seq<Bytes>) returns (buf: Bytes)
      modifies this, store
      ensures var stream := Concat(UntilClosed(chunks));
        && State() == LinesHandled(old(State()), Lines(stream), decode, store.historyCap)
        && buf == Tail(stream)
    {
      hide LineHandled;
      hide LinesHandled;
      hide Lines;
      hide Tail;
      hide Concat;
      ghost var before := State();
      OpenStart();
      NothingReceived(before, decode, store.historyCap);
      buf := [];
      var i := 0;
      while i < |chunks| && chunks[i] != []
        invariant 0 <= i <= |chunks| && forall j | 0 <= j < i :: chunks[j] != []
        invariant buf == Tail(Concat(chunks[..i]))
        invariant State() == LinesHandled(before, Lines(Concat(chunks[..i])), decode, store.historyCap)
      {
        var stream := Concat(chunks[..i]);
        ConcatAppend(chunks[..i], chunks[i]);
        assert chunks[..i + 1] == chunks[..i] + [chunks[i]];
        KeepingTheTailIsEnough(stream, chunks[i]);
        var lines, rest := CutLines(buf + chunks[i]);
        HandledInParts(before, Lines(stream), lines, decode, store.historyCap);
        HandleLines(lines);
        buf := rest;
        i := i + 1;
      }
      ClosedAt(chunks, i);
    }
  }
}
