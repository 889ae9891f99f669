/** The publisher itself: in-place caches, a socket that comes and goes, and a simulated wire. */
module Publisher {
  import opened Types
  import opened Sequences
  import opened Messages
  import opened FeedLink
  import Framing

  /** The network as the publisher meets it: connects and writes succeed or fail as scripted. */
  class Network {
    var accepts: bool
    var budget: nat
    var connections: nat
    var sent: seq<Message>

    function State(): Wire
      reads this
    {
      Wire(accepts, budget, connections, sent)
    }

    constructor ()
      ensures State() == Wire(false, 0, 0, [])
    {
      accepts, budget, connections, sent := false, 0, 0, [];
    }

    /** A new connection, or None when the peer is not listening. */
    method Open() returns (id: Option<nat>)
      modifies this
      ensures if old(accepts)
        then id == Some(old(connections) + 1)
             && State() == old(State()).(connections := old(connections) + 1, sent := [])
        else id == None && State() == old(State())
    {
      if !accepts {
        return None;
      }
      connections := connections + 1;
      sent := [];
      return Some(connections);
    }

    method SendAll(m: Message) returns (ok: bool)
      modifies this
      ensures ok <==> old(budget) > 0
      ensures State() == if ok then old(State()).(budget := old(budget) - 1, sent := old(sent) + [m])
                         else old(State())
    {
      ok := budget > 0;
      if ok {
        budget := budget - 1;
        sent := sent + [m];
      }
    }
  }

  class FeedPublisher {
    const net: Network
    var sock: Option<nat>
    var rbuf: Framing.Bytes
    var nextRetry: int
    var lastProducts: seq<string>
    var lastUniverse: seq<string>
    var lastNames: map<string, string>
    var lastQuotes: map<string, Quote>
    var quoteOrder: seq<string>

    function Memory(): Cache
      reads this
    {
      Cache(lastProducts, lastUniverse, lastNames, lastQuotes, quoteOrder)
    }

    function State(): Link
      reads this, net
    {
      Link(Memory(), sock, rbuf, nextRetry, net.State())
    }

    ghost predicate Valid()
      reads this
    {
      Ordered(Memory())
    }

    constructor (net: Network)
      ensures Valid() && this.net == net
      ensures State() == Link(NOTHING, None, [], 0, net.State())
    {
      this.net := net;
      sock, rbuf, nextRetry := None, [], 0;
      lastProducts, lastUniverse, lastNames, lastQuotes, quoteOrder := [], [], map[], map[], [];
    }

    method Drop()
      modifies this`sock, this`rbuf
      ensures State() == Dropped(old(State()))
    {
      sock := None;
      rbuf := [];
    }

    /** Writes to the established socket and never connects; a failed write drops it. */
    method Write(m: Message) returns (outcome: Outcome)
      modifies this`sock, this`rbuf, net
      ensures (State(), outcome) == Written(old(State()), m)
    {
      if sock.None? {
        return Raised;
      }
      var ok := net.SendAll(m);
      if ok {
        return Delivered;
      }
      Drop();
      return NotDelivered;
    }

    /** Pushes what is cached to a fresh connection, stopping once the socket is lost. */
    method Resync()
      requires Valid() && sock.Some?
      modifies this`sock, this`rbuf, net
      ensures State() == Resynced(old(State()))
    {
      hide Written;
      if lastProducts != [] {
        var o := Write(Products(lastProducts));
      }
      if lastUniverse != [] && sock.Some? {
        var o := Write(Universe(lastUniverse));
      }
      if lastNames != map[] && sock.Some? {
        var o := Write(Names(lastNames));
      }
      if lastQuotes != map[] && sock.Some? {
        var o := Write(Quotes(RowsOf(Memory())));
      }
    }

    method Connect(now: int) returns (attached: bool)
      requires Valid()
      modifies this`sock, this`rbuf, this`nextRetry, net
      ensures (State(), attached) == Connected(old(State()), now)
    {
      hide Resynced;
      if sock.Some? {
        return true;
      }
      if now < nextRetry {
        return false;
      }
      nextRetry := now + RETRY_INTERVAL;
      var id := net.Open();
      if id.None? {
        return false;
      }
      sock := id;
      rbuf := [];
      Resync();
      return true;
    }

    method Send(m: Message, now: int) returns (outcome: Outcome)
      requires Valid()
      modifies this`sock, this`rbuf, this`nextRetry, net
      ensures (State(), outcome) == SendOf(old(State()), m, now)
    {
      hide Connected;
      var attached := Connect(now);
      if !attached {
        return NotDelivered;
      }
      outcome := Write(m);
    }

    method PublishTradeRows(trades: seq<TradeRow>, now: int) returns (outcome: Outcome)
      requires Valid()
      modifies this, net
      ensures Valid() && (State(), outcome) == Performed(old(State()), PublishTrades(trades), now)
    {
      hide SendOf;
      if trades == [] {
        return NotDelivered;
      }
      outcome := Send(Trades(trades), now);
    }

    method PublishHistoryPoints(symbol: string, points: seq<PricePoint>, now: int) returns (outcome: Outcome)
      requires Valid()
      modifies this, net
      ensures Valid() && (State(), outcome) == Performed(old(State()), PublishHistory(symbol, points), now)
    {
      hide SendOf;
      if points == [] {
        return NotDelivered;
      }
      outcome := Send(HistoryOf(symbol, points), now);
    }

    /** Keeps the newest row of each symbol for the next resync. */
    method Remember(rows: seq<Quote>)
      requires Valid()
      modifies this`lastQuotes, this`quoteOrder
      ensures Valid() && State() == old(State()).(cache := Remembered(old(Memory()), rows))
    {
      ghost var before := Memory();
      for i := 0 to |rows|
        invariant Memory() == Remembered(before, rows[..i])
      {
        assert rows[..i + 1][..i] == rows[..i];
        var q := rows[i];
        if q.symbol !in lastQuotes {
          quoteOrder := quoteOrder + [q.symbol];
        }
        lastQuotes := lastQuotes[q.symbol := q];
      }
      assert rows[..|rows|] == rows;
      RememberedStaysOrdered(before, rows);
    }

    /** Remembers the rows, then sends the batch. */
    method PublishQuoteRows(rows: seq<Quote>, now: int) returns (outcome: Outcome)
      requires Valid()
      modifies this, net
      ensures Valid() && (State(), outcome) == Performed(old(State()), PublishQuotes(rows), now)
    {
      hide SendOf;
      if rows == [] {
        return NotDelivered;
      }
      Remember(rows);
      outcome := Send(Quotes(rows), now);
    }

    method SetProductIds(ids: seq<string>, now: int) returns (outcome: Outcome)
      requires Valid()
      modifies this, net
      ensures Valid() && (State(), outcome) == Performed(old(State()), SetProducts(ids), now)
    {
      hide SendOf;
      lastProducts := ids;
      outcome := Send(Products(ids), now);
    }

    method SetUniverseIds(ids: seq<string>, now: int) returns (outcome: Outcome)
      requires Valid()
      modifies this, net
      ensures Valid() && (State(), outcome) == Performed(old(State()), SetUniverse(ids), now)
    {
      hide SendOf;
      lastUniverse := ids;
      outcome := Send(Universe(ids), now);
    }

    method SetDisplayNames(names: map<string, string>, now: int) returns (outcome: Outcome)
      requires Valid()
      modifies this, net
      ensures Valid() && (State(), outcome) == Performed(old(State()), SetNames(names), now)
    {
      hide SendOf;
      lastNames := names;
      outcome := Send(Names(names), now);
    }

    method CloseSocket()
      requires Valid()
      modifies this`sock
      ensures Valid() && State() == Performed(old(State()), Close, 0).0
    {
      if sock.Some? {
        sock := None;
      }
    }

    /** Whether the reply to a poll sent now arrives, given what the socket will yield. */
    ghost predicate Answered(chunks: seq<Framing.Bytes>, now: int)
      requires Valid()
      reads this, net
    {
      Framing.ReplyArrives(SendOf(State(), PollRequests, now).0.rbuf, chunks)
    }

    /** Polls the terminal and reads one reply line; a lost reply drops the socket. */
    method QueryRequests(chunks: seq<Framing.Bytes>, now: int) returns (line: Option<Framing.Bytes>, outcome: Outcome)
      requires Valid()
      modifies this, net
      ensures Valid()
      ensures line.Some? <==> outcome == Delivered && old(Answered(chunks, now))
      ensures var (l, o) := Performed(old(State()), QueryRequested(old(Answered(chunks, now))), now);
        outcome == o && State() == (if line.Some? then l.(rbuf := rbuf) else l)
      ensures line.Some? ==> Framing.NEWLINE !in line.value && exists k | 0 <= k <= |chunks| ::
        line.value + [Framing.NEWLINE] + rbuf
          == SendOf(old(State()), PollRequests, now).0.rbuf + Concat(chunks[..k])
    {
      hide Framing.ReplyArrives;
      hide SendOf;
      outcome := Send(PollRequests, now);
      if outcome != Delivered {
        return None, outcome;
      }
      var reply, used := Framing.ReadReply(rbuf, chunks);
      match reply
      case Lost =>
        Drop();
        line := None;
      case Line(text, rest) =>
        rbuf := rest;
        line := Some(text);
    }
  }
}
