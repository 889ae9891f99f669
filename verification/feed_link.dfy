/**
 The publisher's side of the feed link as values: lazy connect with a retry deadline, a cache of
 state that is pushed again on every connect, and writes that drop the socket when they fail.
 */
module FeedLink {
  import opened Types
  import opened Sequences
  import opened Messages
  import Framing

  /** Nanoseconds; the publisher's flat quarter-second reconnect interval. */
  const RETRY_INTERVAL: int := 250_000_000

  /** What is resent on connect. `order` is the insertion order of the quote table's keys. */
  datatype Cache = Cache(products: seq<string>, universe: seq<string>, names: map<string, string>,
                         quotes: map<string, Quote>, order: seq<string>)

  const NOTHING := Cache([], [], map[], map[], [])

  function Remembered(c: Cache, rows: seq<Quote>): Cache {
    if rows == [] then c
    else
      var q, earlier := rows[|rows| - 1], Remembered(c, rows[..|rows| - 1]);
      earlier.(quotes := earlier.quotes[q.symbol := q],
               order := if q.symbol in earlier.quotes then earlier.order else earlier.order + [q.symbol])
  }

  ghost predicate Ordered(c: Cache) {
    && Distinct(c.order)
    && (forall s :: s in c.order <==> s in c.quotes)
    && (forall s | s in c.quotes :: c.quotes[s].symbol == s)
  }

  function RowsOf(c: Cache): seq<Quote>
    requires forall s | s in c.order :: s in c.quotes
  {
    seq(|c.order|, i requires 0 <= i < |c.order| => c.quotes[c.order[i]])
  }

  /**
   The socket layer: whether a connect would be accepted, how many more writes the current socket
   takes before one fails, how many connections were opened, and what was written on the last one.
   */
  datatype Wire = Wire(accepts: bool, budget: nat, connections: nat, sent: seq<Message>)

  datatype Link = Link(cache: Cache, sock: Option<nat>, rbuf: Framing.Bytes, nextRetry: int, wire: Wire)

  /** `Raised` is the attribute error of writing when no socket is there. */
  datatype Outcome = Delivered | NotDelivered | Raised

  function Dropped(l: Link): Link {
    l.(sock := None, rbuf := [])
  }

  function Written(l: Link, m: Message): (r: (Link, Outcome))
    ensures r.0.cache == l.cache
  {
    if l.sock.None? then (l, Raised)
    else if l.wire.budget == 0 then (Dropped(l), NotDelivered)
    else (l.(wire := l.wire.(budget := l.wire.budget - 1, sent := l.wire.sent + [m])), Delivered)
  }

  /** One guarded step of the resync: nothing for an empty cache or once the socket is gone. */
  function Pushed(l: Link, has: bool, m: Message): (r: Link)
    ensures r.cache == l.cache
  {
    if has && l.sock.Some? then Written(l, m).0 else l
  }

  function Resynced(l: Link): (r: Link)
    requires Ordered(l.cache)
    ensures r.cache == l.cache
  {
    var c := l.cache;
    var l1 := Pushed(l, c.products != [], Products(c.products));
    var l2 := Pushed(l1, c.universe != [], Universe(c.universe));
    var l3 := Pushed(l2, c.names != map[], Names(c.names));
    Pushed(l3, c.quotes != map[], Quotes(RowsOf(c)))
  }

  /** A no-op when attached; otherwise at most one attempt per retry interval. */
  function Connected(l: Link, now: int): (r: (Link, bool))
    requires Ordered(l.cache)
    ensures r.0.cache == l.cache
  {
    if l.sock.Some? then (l, true)
    else if now < l.nextRetry then (l, false)
    else
      var tried := l.(nextRetry := now + RETRY_INTERVAL);
      if !l.wire.accepts then (tried, false)
      else
        var id := l.wire.connections + 1;
        (Resynced(tried.(sock := Some(id), rbuf := [], wire := l.wire.(connections := id, sent := []))), true)
  }

  function SendOf(l: Link, m: Message, now: int): (r: (Link, Outcome))
    requires Ordered(l.cache)
    ensures r.0.cache == l.cache
  {
    var (l1, attached) := Connected(l, now);
    if attached then Written(l1, m) else (l1, NotDelivered)
  }

  // ---------- the public operations ----------

  datatype Op = PublishTrades(trades: seq<TradeRow>)
              | PublishHistory(symbol: string, points: seq<PricePoint>)
              | PublishQuotes(rows: seq<Quote>)
              | SetProducts(ids: seq<string>)
              | SetUniverse(ids: seq<string>)
              | SetNames(names: map<string, string>)
              | QueryRequested(answered: bool)
              | Reconnect
              | Close

  /** The message an operation sends after it has updated the cache, if it sends one. */
  function MessageOf(op: Op): Option<Message> {
    match op
    case PublishTrades(trades) => if trades == [] then None else Some(Trades(trades))
    case PublishHistory(symbol, points) => if points == [] then None else Some(HistoryOf(symbol, points))
    case PublishQuotes(rows) => if rows == [] then None else Some(Quotes(rows))
    case SetProducts(ids) => Some(Products(ids))
    case SetUniverse(ids) => Some(Universe(ids))
    case SetNames(names) => Some(Names(names))
    case QueryRequested(_) => Some(PollRequests)
    case _ => None
  }

  function CacheAfter(c: Cache, op: Op): Cache {
    match op
    case PublishQuotes(rows) => Remembered(c, rows)
    case SetProducts(ids) => c.(products := ids)
    case SetUniverse(ids) => c.(universe := ids)
    case SetNames(names) => c.(names := names)
    case _ => c
  }

  lemma {:induction false} RememberedStaysOrdered(c: Cache, rows: seq<Quote>)
    requires Ordered(c)
    ensures Ordered(Remembered(c, rows))
  {
    if rows != [] {
      RememberedStaysOrdered(c, rows[..|rows| - 1]);
    }
  }

  lemma CacheStaysOrdered(c: Cache, op: Op)
    requires Ordered(c)
    ensures Ordered(CacheAfter(c, op))
  {
    if op.PublishQuotes? {
      RememberedStaysOrdered(c, op.rows);
    }
  }

  function Performed(l: Link, op: Op, now: int): (r: (Link, Outcome))
    requires Ordered(l.cache)
    ensures r.0.cache == CacheAfter(l.cache, op)
  {
    CacheStaysOrdered(l.cache, op);
    var l1 := l.(cache := CacheAfter(l.cache, op));
    if op.Reconnect? then (Connected(l1, now).0, NotDelivered)
    else if op.Close? then (l1.(sock := None), NotDelivered)
    else if MessageOf(op).None? then (l1, NotDelivered)
    else
      var (l2, outcome) := SendOf(l1, MessageOf(op).value, now);
      if op.QueryRequested? && outcome == Delivered && !op.answered then (Dropped(l2), outcome)
      else (l2, outcome)
  }

  // ---------- agreement ----------

  /** Everything non-empty the publisher remembers is what the terminal shows. */
  ghost predicate Agrees(v: Mirror, c: Cache) {
    && (c.products != [] ==> v.products == c.products)
    && (c.universe != [] ==> v.universe == c.universe)
    && (c.names != map[] ==> v.names == c.names)
    && (forall s | s in c.quotes && s != "" :: s in v.lastQuote && v.lastQuote[s] == c.quotes[s])
  }

  /** Whoever receives these messages from the start agrees with the cache, whatever it showed before. */
  ghost predicate Covers(sent: seq<Message>, c: Cache) {
    forall v: Mirror :: Agrees(ShownAll(v, sent), c)
  }

  /** A socket in hand means everything cached has been written on it. */
  ghost predicate Synced(l: Link) {
    && Ordered(l.cache)
    && (l.sock.Some? ==> l.sock.value == l.wire.connections && Covers(l.wire.sent, l.cache))
  }

  lemma ShownAllAppend(v: Mirror, sent: seq<Message>, m: Message)
    ensures ShownAll(v, sent + [m]) == Shown(ShownAll(v, sent), m)
  {
    assert (sent + [m])[..|sent|] == sent;
  }

  /** The last row for a symbol, which is what both ends keep. */
  function LastRow(rows: seq<Quote>, symbol: string): Option<Quote> {
    if rows == [] then None
    else if rows[|rows| - 1].symbol == symbol then Some(rows[|rows| - 1])
    else LastRow(rows[..|rows| - 1], symbol)
  }

  lemma {:induction false} ShownIsLastRow(shown: map<string, Quote>, rows: seq<Quote>, s: string)
    requires s != ""
    ensures match LastRow(rows, s)
      case Some(q) => s in QuotesShown(shown, rows) && QuotesShown(shown, rows)[s] == q
      case None => (s in QuotesShown(shown, rows) <==> s in shown)
                   && (s in shown ==> QuotesShown(shown, rows)[s] == shown[s])
  {
    if rows != [] {
      ShownIsLastRow(shown, rows[..|rows| - 1], s);
    }
  }

  lemma {:induction false} RememberedIsLastRow(c: Cache, rows: seq<Quote>, s: string)
    ensures var r := Remembered(c, rows);
      && (match LastRow(rows, s)
          case Some(q) => s in r.quotes && r.quotes[s] == q
          case None => (s in r.quotes <==> s in c.quotes) && (s in c.quotes ==> r.quotes[s] == c.quotes[s]))
      && r.products == c.products && r.universe == c.universe && r.names == c.names
  {
    if rows != [] {
      RememberedIsLastRow(c, rows[..|rows| - 1], s);
    }
  }

  /** Rows on the wire bring a mirror into agreement with the cache that remembered them. */
  lemma LiveQuotesAgree(v: Mirror, c: Cache, rows: seq<Quote>)
    requires Agrees(v, c) || Agrees(v, Remembered(c, rows))
    ensures Agrees(Shown(v, Quotes(rows)), Remembered(c, rows))
  {
    RememberedIsLastRow(c, rows, "");
    var r := Remembered(c, rows);
    forall s | s in r.quotes && s != ""
      ensures s in QuotesShown(v.lastQuote, rows) && QuotesShown(v.lastQuote, rows)[s] == r.quotes[s]
    {
      RememberedIsLastRow(c, rows, s);
      ShownIsLastRow(v.lastQuote, rows, s);
    }
  }

  /**
   Sending an operation's message brings a mirror that agreed with the cache before or after the
   operation into agreement with the cache after it.
   */
  lemma LiveMessageAgrees(v: Mirror, c: Cache, op: Op)
    requires MessageOf(op).Some? && (Agrees(v, c) || Agrees(v, CacheAfter(c, op)))
    ensures Agrees(Shown(v, MessageOf(op).value), CacheAfter(c, op))
  {
    match op
    case PublishQuotes(rows) => LiveQuotesAgree(v, c, rows);
    case _ =>
  }

  lemma {:induction false} RowsShown(shown: map<string, Quote>, rows: seq<Quote>)
    requires forall i, j | 0 <= i < j < |rows| :: rows[i].symbol != rows[j].symbol
    ensures forall i | 0 <= i < |rows| && rows[i].symbol != "" ::
      rows[i].symbol in QuotesShown(shown, rows) && QuotesShown(shown, rows)[rows[i].symbol] == rows[i]
  {
    if rows != [] {
      var earlier := rows[..|rows| - 1];
      RowsShown(shown, earlier);
      forall i | 0 <= i < |rows| && rows[i].symbol != ""
        ensures rows[i].symbol in QuotesShown(shown, rows) && QuotesShown(shown, rows)[rows[i].symbol] == rows[i]
      {
        if i < |earlier| {
          assert earlier[i] == rows[i];
        }
      }
    }
  }

  lemma CachedRowsShown(v: Mirror, c: Cache)
    requires Ordered(c)
    ensures forall s | s in c.quotes && s != "" ::
      s in QuotesShown(v.lastQuote, RowsOf(c)) && QuotesShown(v.lastQuote, RowsOf(c))[s] == c.quotes[s]
  {
    var rows := RowsOf(c);
    RowsShown(v.lastQuote, rows);
    forall s | s in c.quotes && s != ""
      ensures s in QuotesShown(v.lastQuote, rows) && QuotesShown(v.lastQuote, rows)[s] == c.quotes[s]
    {
      var i :| 0 <= i < |c.order| && c.order[i] == s;
      assert rows[i] == c.quotes[s];
    }
  }

  /** What a resync writes when no write fails. */
  function ResyncMessages(c: Cache): seq<Message>
    requires Ordered(c)
  {
    (if c.products != [] then [Products(c.products)] else []) +
    (if c.universe != [] then [Universe(c.universe)] else []) +
    (if c.names != map[] then [Names(c.names)] else []) +
    (if c.quotes != map[] then [Quotes(RowsOf(c))] else [])
  }

  /** The wire took these messages in full, or the socket is gone. */
  ghost predicate Took(l: Link, l': Link, messages: seq<Message>) {
    && l'.cache == l.cache && l'.nextRetry == l.nextRetry && l'.wire.connections == l.wire.connections
    && (l'.sock.Some? <==> |messages| <= l.wire.budget)
    && (l'.sock.Some? ==> l' == l.(wire := l.wire.(budget := l.wire.budget - |messages|,
                                                   sent := l.wire.sent + messages)))
  }

  lemma PushTakes(l: Link, l1: Link, messages: seq<Message>, has: bool, m: Message)
    requires l.sock.Some? && Took(l, l1, messages)
    ensures Took(l, Pushed(l1, has, m), messages + if has then [m] else [])
  {
    var more := if has then [m] else [];
    if l1.sock.Some? {
      assert l.wire.sent + messages + more == l.wire.sent + (messages + more);
    }
  }

  /** A resync keeps its socket exactly when the wire takes all of it, and then all of it was written. */
  lemma ResyncInFull(l: Link)
    requires Ordered(l.cache) && l.sock.Some? && l.wire.sent == []
    ensures var l' := Resynced(l);
      && (l'.sock.Some? <==> |ResyncMessages(l.cache)| <= l.wire.budget)
      && (l'.sock.Some? ==> l'.wire.sent == ResyncMessages(l.cache) && l'.sock == l.sock)
      && l'.cache == l.cache && l'.nextRetry == l.nextRetry && l'.wire.connections == l.wire.connections
  {
    ResyncTakes(l);
    hide Resynced;
    hide ResyncMessages;
    assert [] + ResyncMessages(l.cache) == ResyncMessages(l.cache);
  }

  lemma ResyncTakes(l: Link)
    requires Ordered(l.cache) && l.sock.Some?
    ensures Took(l, Resynced(l), ResyncMessages(l.cache))
  {
    NothingTaken(l);
    hide Pushed;
    hide Took;
    hide Ordered;
    hide RowsOf;
    var c := l.cache;
    var l1 := Pushed(l, c.products != [], Products(c.products));
    var l2 := Pushed(l1, c.universe != [], Universe(c.universe));
    var l3 := Pushed(l2, c.names != map[], Names(c.names));
    var p := [] + if c.products != [] then [Products(c.products)] else [];
    var u := p + if c.universe != [] then [Universe(c.universe)] else [];
    var n := u + if c.names != map[] then [Names(c.names)] else [];
    PushTakes(l, l, [], c.products != [], Products(c.products));
    PushTakes(l, l1, p, c.universe != [], Universe(c.universe));
    PushTakes(l, l2, u, c.names != map[], Names(c.names));
    PushTakes(l, l3, n, c.quotes != map[], Quotes(RowsOf(c)));
    assert ResyncMessages(c) == n + if c.quotes != map[] then [Quotes(RowsOf(c))] else [];
  }

  lemma NothingTaken(l: Link)
    requires l.sock.Some?
    ensures Took(l, l, [])
  {
    assert l.wire.sent + [] == l.wire.sent;
  }

  lemma ResyncCovers(c: Cache)
    requires Ordered(c)
    ensures Covers(ResyncMessages(c), c)
  {
    forall v: Mirror
      ensures Agrees(ShownAll(v, ResyncMessages(c)), c)
    {
      ResyncShows(v, c);
    }
  }

  lemma ShownOptional(v: Mirror, sent: seq<Message>, has: bool, m: Message)
    ensures ShownAll(v, sent + if has then [m] else [])
         == if has then Shown(ShownAll(v, sent), m) else ShownAll(v, sent)
  {
    if has {
      ShownAllAppend(v, sent, m);
    } else {
      assert sent + [] == sent;
    }
  }

  lemma ResyncShows(v: Mirror, c: Cache)
    requires Ordered(c)
    ensures Agrees(ShownAll(v, ResyncMessages(c)), c)
  {
    var p := if c.products != [] then [Products(c.products)] else [];
    var u := p + if c.universe != [] then [Universe(c.universe)] else [];
    var n := u + if c.names != map[] then [Names(c.names)] else [];
    ShownOptional(v, [], c.products != [], Products(c.products));
    assert [] + p == p;
    ShownOptional(v, p, c.universe != [], Universe(c.universe));
    ShownOptional(v, u, c.names != map[], Names(c.names));
    ShownOptional(v, n, c.quotes != map[], Quotes(RowsOf(c)));
    CachedRowsShown(ShownAll(v, n), c);
    hide QuotesShown;
  }

  lemma ConnectKeepsSynced(l: Link, now: int)
    requires Synced(l)
    ensures Synced(Connected(l, now).0)
    ensures Connected(l, now).0.cache == l.cache
  {
    hide Resynced;
    hide ResyncMessages;
    if l.sock.None? && now >= l.nextRetry && l.wire.accepts {
      var id := l.wire.connections + 1;
      var attached := l.(nextRetry := now + RETRY_INTERVAL, sock := Some(id), rbuf := [],
                       wire := l.wire.(connections := id, sent := []));
      ResyncInFull(attached);
      ResyncCovers(l.cache);
    }
  }

  lemma WriteKeepsSynced(l: Link, c: Cache, op: Op)
    requires l.cache == CacheAfter(c, op) && MessageOf(op).Some? && Ordered(l.cache)
    requires l.sock.Some? ==> l.sock.value == l.wire.connections
    requires l.sock.Some? ==> Covers(l.wire.sent, c) || Covers(l.wire.sent, l.cache)
    ensures Synced(Written(l, MessageOf(op).value).0)
  {
    if l.sock.Some? && l.wire.budget > 0 {
      var m := MessageOf(op).value;
      forall v: Mirror
        ensures Agrees(ShownAll(v, l.wire.sent + [m]), l.cache)
      {
        ShownAllAppend(v, l.wire.sent, m);
        LiveMessageAgrees(ShownAll(v, l.wire.sent), c, op);
      }
    }
  }

  /** Every operation, however its connect and writes turn out, leaves a socket in sync or none at all. */
  lemma OperationsKeepSynced(l: Link, op: Op, now: int)
    requires Synced(l)
    ensures Synced(Performed(l, op, now).0)
  {
    hide Covers;
    hide Connected;
    var l1 := l.(cache := CacheAfter(l.cache, op));
    CacheStaysOrdered(l.cache, op);
    if MessageOf(op).Some? {
      if l.sock.Some? {
        AttachedStays(l1, now);
        WriteKeepsSynced(l1, l.cache, op);
      } else {
        ConnectKeepsSynced(l1, now);
        WriteKeepsSynced(Connected(l1, now).0, l.cache, op);
      }
    } else if op.Reconnect? {
      ConnectKeepsSynced(l1, now);
    }
  }

  lemma AttachedStays(l: Link, now: int)
    requires l.sock.Some? && Ordered(l.cache)
    ensures Connected(l, now) == (l, true)
  {
  }

  /** A connect made now is accepted, but the peer is gone before it has taken all that is cached. */
  predicate LosesResync(l: Link, now: int)
    requires Ordered(l.cache)
  {
    l.sock.None? && now >= l.nextRetry && l.wire.accepts && l.wire.budget < |ResyncMessages(l.cache)|
  }

  /** A write raises exactly when this very call attached and the resync lost the socket again. */
  lemma RaisedIff(l: Link, m: Message, now: int)
    requires Ordered(l.cache)
    ensures SendOf(l, m, now).1 == Raised <==> LosesResync(l, now)
  {
    hide Resynced;
    hide ResyncMessages;
    if l.sock.None? && now >= l.nextRetry && l.wire.accepts {
      var id := l.wire.connections + 1;
      ResyncInFull(l.(nextRetry := now + RETRY_INTERVAL, sock := Some(id), rbuf := [],
                      wire := l.wire.(connections := id, sent := [])));
    }
  }

  // ---------- what reaches the wire ----------

  /** A connect made now is accepted and the peer takes all that is cached, and one message more. */
  predicate TakesOneMore(l: Link, now: int)
    requires Ordered(l.cache)
  {
    if l.sock.Some? then l.wire.budget > 0
    else now >= l.nextRetry && l.wire.accepts && l.wire.budget > |ResyncMessages(l.cache)|
  }

  /** What the current connection carries before the message: all so far, or what a new one resends. */
  function Ahead(l: Link): seq<Message>
    requires Ordered(l.cache)
  {
    if l.sock.Some? then l.wire.sent else ResyncMessages(l.cache)
  }

  /** A message is delivered exactly when the link takes it, is then last on the wire, and is else dropped. */
  lemma DeliveredIff(l: Link, m: Message, now: int)
    requires Ordered(l.cache)
    ensures var (l', o) := SendOf(l, m, now);
      && (o == Delivered <==> TakesOneMore(l, now))
      && (o == Delivered <==> l'.sock.Some?)
      && (o == Delivered ==> l'.wire.sent == Ahead(l) + [m])
  {
    if l.sock.None? && now >= l.nextRetry && l.wire.accepts {
      var id := l.wire.connections + 1;
      var attached := l.(nextRetry := now + RETRY_INTERVAL, sock := Some(id), rbuf := [],
                         wire := l.wire.(connections := id, sent := []));
      ResyncTakes(attached);
      assert attached.wire.sent + ResyncMessages(l.cache) == ResyncMessages(l.cache);
    }
    hide Resynced;
    hide ResyncMessages;
  }

  /** Bytes of a reply never outlive their connection. */
  lemma NoStaleReply(l: Link, op: Op, now: int)
    requires Ordered(l.cache)
    ensures var l' := Performed(l, op, now).0;
      && (l'.sock.Some? && l'.sock == l.sock ==> l'.rbuf == l.rbuf)
      && (l'.sock.Some? && l'.sock != l.sock ==> l'.rbuf == [])
  {
    CacheStaysOrdered(l.cache, op);
    ConnectForgetsReplies(l.(cache := CacheAfter(l.cache, op)), now);
    hide Connected;
    hide Ordered;
  }

  lemma ConnectForgetsReplies(l: Link, now: int)
    requires Ordered(l.cache)
    ensures var l' := Connected(l, now).0;
      if l.sock.Some? then l' == l else l'.sock.Some? ==> l'.rbuf == []
  {
    hide Resynced;
    hide ResyncMessages;
    hide Ordered;
    if l.sock.None? && now >= l.nextRetry && l.wire.accepts {
      var id := l.wire.connections + 1;
      ResyncTakes(l.(nextRetry := now + RETRY_INTERVAL, sock := Some(id), rbuf := [],
                     wire := l.wire.(connections := id, sent := [])));
    }
  }

  /** Each kind of operation, once delivered, has put exactly its own content on the wire. */
  lemma OperationsReachTheWire(l: Link, op: Op, now: int)
    requires Ordered(l.cache)
    ensures var (l', o) := Performed(l, op, now);
      var l1 := l.(cache := CacheAfter(l.cache, op));
      && Ordered(l1.cache)
      && (op.PublishTrades? && op.trades != [] ==>
            && (o == Delivered <==> TakesOneMore(l1, now))
            && (o == Delivered ==> l'.wire.sent == Ahead(l1) + [Trades(op.trades)]))
      && (op.PublishHistory? && op.points != [] ==>
            && (o == Delivered <==> TakesOneMore(l1, now))
            && (o == Delivered ==> l'.wire.sent == Ahead(l1) + [HistoryOf(op.symbol, op.points)]))
      && (op.PublishQuotes? && op.rows != [] ==>
            && (o == Delivered <==> TakesOneMore(l1, now))
            && (o == Delivered ==> l'.wire.sent == Ahead(l1) + [Quotes(op.rows)]))
      && (op.SetProducts? ==>
            && (o == Delivered <==> TakesOneMore(l1, now))
            && (o == Delivered ==> l'.wire.sent == Ahead(l1) + [Products(op.ids)]))
      && (op.SetUniverse? ==>
            && (o == Delivered <==> TakesOneMore(l1, now))
            && (o == Delivered ==> l'.wire.sent == Ahead(l1) + [Universe(op.ids)]))
      && (op.SetNames? ==>
            && (o == Delivered <==> TakesOneMore(l1, now))
            && (o == Delivered ==> l'.wire.sent == Ahead(l1) + [Names(op.names)]))
      && (op.QueryRequested? ==>
            && (o == Delivered <==> TakesOneMore(l1, now))
            && (o == Delivered ==> l'.wire.sent == Ahead(l1) + [PollRequests]))
  {
    hide SendOf;
    hide TakesOneMore;
    hide Ahead;
    hide Ordered;
    CacheStaysOrdered(l.cache, op);
    if MessageOf(op).Some? {
      DeliveredIff(l.(cache := CacheAfter(l.cache, op)), MessageOf(op).value, now);
    }
  }
}
