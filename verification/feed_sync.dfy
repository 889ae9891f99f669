/**
 Publisher and terminal as one system over a FIFO connection that either end may lose at any
 moment: whenever both share a live connection and it is drained, the terminal shows what the
 publisher remembers.
 */
module FeedSync {
  import opened Types
  import opened Messages
  import opened FeedLink

  /**
   The terminal's end: the connection it serves, the newest one it has accepted or outlived, how
   many messages of it were handled, what it showed when that connection was accepted, and now.
   */
  datatype Terminal = Terminal(conn: Option<nat>, newest: nat, handled: nat, base: Mirror, view: Mirror)

  const BLANK := Mirror(map[], [], [], map[])

  datatype Sys = Sys(link: Link, term: Terminal)

  predicate Shared(s: Sys) {
    s.link.sock.Some? && s.term.conn == s.link.sock
  }

  predicate Drained(s: Sys) {
    s.term.handled == |s.link.wire.sent|
  }

  /**
   `Weather` sets whether connects and how many more writes succeed; `AcceptOlder` and `DeliverStale`
   serve a connection the publisher has already left, whose content may be anything.
   */
  datatype Event = Publish(op: Op, now: int)
                 | Weather(accepts: bool, budget: nat)
                 | Accept
                 | AcceptOlder(id: nat)
                 | Deliver
                 | DeliverStale(m: Message)
                 | TerminalCloses
                 | TerminalRestarts

  function Next(s: Sys, ev: Event): Sys
    requires Ordered(s.link.cache)
  {
    match ev
    case Publish(op, now) => s.(link := Performed(s.link, op, now).0)
    case Weather(accepts, budget) =>
      s.(link := s.link.(wire := s.link.wire.(accepts := accepts, budget := budget)))
    case Accept =>
      if s.term.conn.None? && s.link.sock.Some? && s.link.sock.value > s.term.newest
      then s.(term := Terminal(s.link.sock, s.link.sock.value, 0, s.term.view, s.term.view))
      else s
    case AcceptOlder(id) =>
      if s.term.conn.None? && s.term.newest < id <= s.link.wire.connections && s.link.sock != Some(id)
      then s.(term := s.term.(conn := Some(id), newest := id))
      else s
    case Deliver =>
      if Shared(s) && s.term.handled < |s.link.wire.sent|
      then s.(term := s.term.(handled := s.term.handled + 1,
                              view := Shown(s.term.view, s.link.wire.sent[s.term.handled])))
      else s
    case DeliverStale(m) =>
      if s.term.conn.Some? && !Shared(s) then s.(term := s.term.(view := Shown(s.term.view, m))) else s
    case TerminalCloses => s.(term := s.term.(conn := None))
    case TerminalRestarts => s.(term := Terminal(None, s.link.wire.connections, 0, BLANK, BLANK))
  }

  ghost predicate Tracks(s: Sys) {
    && Synced(s.link)
    && s.term.newest <= s.link.wire.connections
    && (s.term.conn.Some? ==> s.term.conn.value <= s.term.newest)
    && (Shared(s) ==>
          && s.term.handled <= |s.link.wire.sent|
          && s.term.view == ShownAll(s.term.base, s.link.wire.sent[..s.term.handled]))
  }

  /** An operation either keeps the connection and appends to it, or the publisher has left it. */
  lemma OperationsExtendTheConnection(l: Link, op: Op, now: int)
    requires Synced(l)
    ensures var l' := Performed(l, op, now).0;
      && l.wire.connections <= l'.wire.connections
      && (l'.sock.Some? && l'.sock == l.sock ==> l.wire.sent <= l'.wire.sent)
      && (l'.sock.Some? && l'.sock != l.sock ==> l'.sock.value > l.wire.connections)
  {
    hide Covers;
    hide Resynced;
    hide Connected;
    var l1 := l.(cache := CacheAfter(l.cache, op));
    CacheStaysOrdered(l.cache, op);
    ConnectOpensANewOne(l1, now);
    if l.sock.Some? {
      AttachedStays(l1, now);
    }
  }

  lemma ConnectOpensANewOne(l: Link, now: int)
    requires Ordered(l.cache)
    ensures var l' := Connected(l, now).0;
      && l.wire.connections <= l'.wire.connections
      && (l.sock.None? && l'.sock.Some? ==> l'.sock.value > l.wire.connections)
  {
    hide Resynced;
    if l.sock.None? && now >= l.nextRetry && l.wire.accepts {
      var id := l.wire.connections + 1;
      ResyncInFull(l.(nextRetry := now + RETRY_INTERVAL, sock := Some(id), rbuf := [],
                      wire := l.wire.(connections := id, sent := [])));
    }
  }

  lemma NextKeepsTracks(s: Sys, ev: Event)
    requires Tracks(s)
    ensures Tracks(Next(s, ev))
  {
    hide Covers;
    hide Performed;
    match ev
    case Publish(op, now) =>
      OperationsKeepSynced(s.link, op, now);
      OperationsExtendTheConnection(s.link, op, now);
      var s' := Next(s, ev);
      if Shared(s') {
        assert s'.link.wire.sent[..s.term.handled] == s.link.wire.sent[..s.term.handled];
      }
    case Deliver =>
      if Shared(s) && s.term.handled < |s.link.wire.sent| {
        var sent, k := s.link.wire.sent, s.term.handled;
        assert sent[..k + 1] == sent[..k] + [sent[k]];
        ShownAllAppend(s.term.base, sent[..k], sent[k]);
      }
    case _ =>
  }

  function Started(): Sys {
    Sys(Link(NOTHING, None, [], 0, Wire(false, 0, 0, [])), Terminal(None, 0, 0, BLANK, BLANK))
  }

  /** Where a run of events ends up; every such state tracks. */
  ghost function RunOf(events: seq<Event>): (s: Sys)
    ensures Tracks(s)
  {
    if events == [] then Started()
    else
      var before := RunOf(events[..|events| - 1]);
      NextKeepsTracks(before, events[|events| - 1]);
      Next(before, events[|events| - 1])
  }

  /** Resync is correct: drained over a shared connection, the terminal agrees with the cache. */
  lemma ResyncIsCorrect(events: seq<Event>)
    requires Shared(RunOf(events)) && Drained(RunOf(events))
    ensures Agrees(RunOf(events).term.view, RunOf(events).link.cache)
  {
    var s := RunOf(events);
    assert s.link.wire.sent[..s.term.handled] == s.link.wire.sent;
  }

  lemma RunOfNext(events: seq<Event>, ev: Event)
    ensures RunOf(events + [ev]) == Next(RunOf(events), ev)
  {
    assert (events + [ev])[..|events|] == events;
  }

  /** A catalog set while the terminal is down, then a peer that accepts and hangs up: the next send raises. */
  lemma HangingUpRaises()
    ensures var link := RunOf([Publish(SetProducts(["A"]), 0), Weather(true, 0)]).link;
      Performed(link, SetUniverse(["A"]), RETRY_INTERVAL).1 == Raised
  {
    var listing, up := Publish(SetProducts(["A"]), 0), Weather(true, 0);
    RunOfNext([], listing);
    RunOfNext([listing], up);
    assert [] + [listing] == [listing] && [listing] + [up] == [listing, up];
    var link := RunOf([listing, up]).link;
    assert link.cache == NOTHING.(products := ["A"]) && link.sock.None? && link.nextRetry == RETRY_INTERVAL;
    var l := link.(cache := CacheAfter(link.cache, SetUniverse(["A"])));
    assert |ResyncMessages(l.cache)| > 0;
    RaisedIff(l, Universe(["A"]), RETRY_INTERVAL);
    hide SendOf;
  }

  // ---------- the retry rate ----------

  /** Whether an operation tries to open a connection. */
  predicate Attempts(l: Link, op: Op, now: int) {
    && l.sock.None? && now >= l.nextRetry
    && (op.Reconnect? || (op != Close && MessageOf(op).Some?))
  }

  function AttemptIn(s: Sys, ev: Event): seq<int> {
    if ev.Publish? && Attempts(s.link, ev.op, ev.now) then [ev.now] else []
  }

  /** The times of a run's connection attempts, in order. */
  ghost function AttemptsOf(events: seq<Event>): seq<int> {
    if events == [] then []
    else
      var earlier := events[..|events| - 1];
      AttemptsOf(earlier) + AttemptIn(RunOf(earlier), events[|events| - 1])
  }

  lemma AttemptMovesTheDeadline(l: Link, op: Op, now: int)
    requires Ordered(l.cache)
    ensures Performed(l, op, now).0.nextRetry
         == if Attempts(l, op, now) then now + RETRY_INTERVAL else l.nextRetry
  {
    CacheStaysOrdered(l.cache, op);
    ConnectSetsDeadline(l.(cache := CacheAfter(l.cache, op)), now);
    hide Connected;
    hide Ordered;
  }

  lemma ConnectSetsDeadline(l: Link, now: int)
    requires Ordered(l.cache)
    ensures Connected(l, now).0.nextRetry
         == if l.sock.None? && now >= l.nextRetry then now + RETRY_INTERVAL else l.nextRetry
  {
    hide Resynced;
    if l.sock.None? && now >= l.nextRetry && l.wire.accepts {
      var id := l.wire.connections + 1;
      ResyncInFull(l.(nextRetry := now + RETRY_INTERVAL, sock := Some(id), rbuf := [],
                      wire := l.wire.(connections := id, sent := [])));
    }
  }

  lemma NextMovesTheDeadline(s: Sys, ev: Event)
    requires Ordered(s.link.cache)
    ensures var at := AttemptIn(s, ev);
      && |at| <= 1 && (at != [] ==> s.link.nextRetry <= at[0])
      && Next(s, ev).link.nextRetry == if at != [] then at[0] + RETRY_INTERVAL else s.link.nextRetry
  {
    hide Performed;
    if ev.Publish? {
      AttemptMovesTheDeadline(s.link, ev.op, ev.now);
    }
  }

  ghost predicate Spaced(at: seq<int>, nextRetry: int) {
    && (forall i | 0 < i < |at| :: at[i - 1] + 250_000_000 <= at[i])
    && (at != [] ==> at[|at| - 1] + RETRY_INTERVAL == nextRetry)
  }

  /** However often the feed publishes while detached, attempts are a retry interval apart. */
  lemma {:induction false} AttemptsAreSpaced(events: seq<Event>)
    ensures Spaced(AttemptsOf(events), RunOf(events).link.nextRetry)
  {
    if events != [] {
      hide Next;
      hide AttemptIn;
      hide Tracks;
      hide RunOf;
      hide AttemptsOf;
      AttemptsAreSpaced(events[..|events| - 1]);
      OneMoreEvent(events);
    }
  }

  lemma OneMoreEvent(events: seq<Event>)
    requires events != []
    requires Spaced(AttemptsOf(events[..|events| - 1]), RunOf(events[..|events| - 1]).link.nextRetry)
    ensures Spaced(AttemptsOf(events), RunOf(events).link.nextRetry)
  {
    hide Next;
    hide AttemptIn;
    hide RunOf;
    hide AttemptsOf;
    hide Spaced;
    hide Tracks;
    hide Ordered;
    var earlier, ev := events[..|events| - 1], events[|events| - 1];
    LastEvent(events);
    NextMovesTheDeadline(RunOf(earlier), ev);
    SpacedStep(AttemptsOf(earlier), RunOf(earlier).link.nextRetry, AttemptIn(RunOf(earlier), ev),
               RunOf(events).link.nextRetry);
  }

  lemma LastEvent(events: seq<Event>)
    requires events != []
    ensures var earlier, ev := events[..|events| - 1], events[|events| - 1];
      && Ordered(RunOf(earlier).link.cache)
      && RunOf(events) == Next(RunOf(earlier), ev)
      && AttemptsOf(events) == AttemptsOf(earlier) + AttemptIn(RunOf(earlier), ev)
  {
    hide Next;
    hide AttemptIn;
    hide Covers;
    assert Tracks(RunOf(events[..|events| - 1]));
  }

  lemma SpacedStep(at: seq<int>, due: int, more: seq<int>, nextRetry: int)
    requires Spaced(at, due) && |more| <= 1 && (more != [] ==> due <= more[0])
    requires nextRetry == if more != [] then more[0] + RETRY_INTERVAL else due
    ensures Spaced(at + more, nextRetry)
  {
    assert more == [] ==> at + more == at;
  }
}
