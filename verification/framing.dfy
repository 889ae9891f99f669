/** Newline framing: what a byte stream means as lines, however it was cut into chunks. */
module Framing {
  import opened Types
  import opened Sequences

  newtype byte = x: int | 0 <= x < 256

  const NEWLINE: byte := 10

  type Bytes = seq<byte>

  /** The complete lines of a stream, without their newlines. */
  function Lines(s: Bytes): seq<Bytes> {
    if s == [] then []
    else if s[|s| - 1] == NEWLINE then Lines(s[..|s| - 1]) + [Tail(s[..|s| - 1])]
    else Lines(s[..|s| - 1])
  }

  /** What follows the last newline. */
  function Tail(s: Bytes): Bytes {
    if s == [] || s[|s| - 1] == NEWLINE then [] else Tail(s[..|s| - 1]) + [s[|s| - 1]]
  }

  function Encoded(lines: seq<Bytes>): Bytes {
    if lines == [] then [] else Encoded(lines[..|lines| - 1]) + lines[|lines| - 1] + [NEWLINE]
  }

  ghost predicate NewlineFree(lines: seq<Bytes>) {
    forall i | 0 <= i < |lines| :: NEWLINE !in lines[i]
  }

  // ---------- lines and tail are the one way to cut a stream at its newlines ----------

  /** Nothing is lost: the lines with their newlines, then the tail, are the stream. */
  lemma {:induction false} LinesRebuildTheStream(s: Bytes)
    ensures Encoded(Lines(s)) + Tail(s) == s
    ensures NewlineFree(Lines(s)) && NEWLINE !in Tail(s)
  {
    if s != [] {
      var rest := s[..|s| - 1];
      LinesRebuildTheStream(rest);
      if s[|s| - 1] == NEWLINE {
        EncodedAppend(Lines(rest), Tail(rest));
      }
    }
  }

  lemma EncodedAppend(lines: seq<Bytes>, line: Bytes)
    ensures Encoded(lines + [line]) == Encoded(lines) + line + [NEWLINE]
  {
    assert (lines + [line])[..|lines|] == lines;
  }

  lemma {:induction false} NewlineFreeSuffix(s: Bytes, t: Bytes)
    requires NEWLINE !in t
    ensures Lines(s + t) == Lines(s) && Tail(s + t) == Tail(s) + t
  {
    if t == [] {
      assert s + t == s;
    } else {
      var shorter := t[..|t| - 1];
      assert (s + t)[..|s + t| - 1] == s + shorter;
      assert t == shorter + [t[|t| - 1]];
      NewlineFreeSuffix(s, shorter);
      assert Tail(s) + t == Tail(s) + shorter + [t[|t| - 1]];
    }
  }

  lemma LineEnds(s: Bytes, line: Bytes)
    requires NEWLINE !in line
    ensures Lines(s + line + [NEWLINE]) == Lines(s) + [Tail(s) + line]
    ensures Tail(s + line + [NEWLINE]) == []
  {
    NewlineFreeSuffix(s, line);
    assert (s + line + [NEWLINE])[..|s + line|] == s + line;
  }

  /** Decoding what was encoded gives it back, with whatever unfinished line followed. */
  lemma {:induction false} EncodedDecodes(lines: seq<Bytes>, tail: Bytes)
    requires NewlineFree(lines) && NEWLINE !in tail
    ensures Lines(Encoded(lines) + tail) == lines
    ensures Tail(Encoded(lines) + tail) == tail
  {
    NewlineFreeSuffix(Encoded(lines), tail);
    if lines == [] {
      assert Encoded(lines) + tail == tail;
      assert [] + tail == tail;
    } else {
      var earlier := lines[..|lines| - 1];
      EncodedDecodes(earlier, []);
      assert Encoded(earlier) + [] == Encoded(earlier);
      LineEnds(Encoded(earlier), lines[|lines| - 1]);
      assert [] + lines[|lines| - 1] == lines[|lines| - 1];
      assert lines == earlier + [lines[|lines| - 1]];
    }
  }

  lemma CutIsUnique(s: Bytes, lines: seq<Bytes>, tail: Bytes)
    requires NewlineFree(lines) && NEWLINE !in tail
    ensures s == Encoded(lines) + tail <==> lines == Lines(s) && tail == Tail(s)
  {
    LinesRebuildTheStream(s);
    EncodedDecodes(lines, tail);
  }

  lemma OneMoreByte(s: Bytes, b: byte)
    ensures Lines(s + [b]) == if b == NEWLINE then Lines(s) + [Tail(s)] else Lines(s)
    ensures Tail(s + [b]) == if b == NEWLINE then [] else Tail(s) + [b]
  {
    assert (s + [b])[..|s|] == s;
  }

  lemma TailIsOneOpenLine(s: Bytes)
    ensures Lines(Tail(s)) == [] && Tail(Tail(s)) == Tail(s)
  {
    LinesRebuildTheStream(s);
    NewlineFreeSuffix([], Tail(s));
    assert [] + Tail(s) == Tail(s);
  }

  /** A buffer that keeps only the tail loses nothing when more arrives. */
  lemma {:induction false} KeepingTheTailIsEnough(s: Bytes, more: Bytes)
    ensures Lines(s + more) == Lines(s) + Lines(Tail(s) + more)
    ensures Tail(s + more) == Tail(Tail(s) + more)
  {
    hide Lines;
    hide Tail;
    if more == [] {
      TailIsOneOpenLine(s);
      assert s + more == s && Tail(s) + more == Tail(s);
    } else {
      var shorter, last := more[..|more| - 1], more[|more| - 1];
      KeepingTheTailIsEnough(s, shorter);
      OneMoreByte(s + shorter, last);
      OneMoreByte(Tail(s) + shorter, last);
      assert s + more == s + shorter + [last];
      assert Tail(s) + more == Tail(s) + shorter + [last];
    }
  }

  // ---------- the reading loop ----------

  /** The first newline at or after `start`. */
  method FindNewline(buf: Bytes, start: nat) returns (nl: Option<nat>)
    requires start <= |buf|
    ensures match nl
      case Some(k) => start <= k < |buf| && buf[k] == NEWLINE && NEWLINE !in buf[start..k]
      case None => NEWLINE !in buf[start..]
  {
    var k := start;
    while k < |buf|
      invariant start <= k <= |buf| && NEWLINE !in buf[start..k]
    {
      if buf[k] == NEWLINE {
        return Some(k);
      }
      k := k + 1;
    }
    return None;
  }

  lemma NextLine(buf: Bytes, start: nat, k: nat)
    requires start <= k < |buf| && buf[k] == NEWLINE && NEWLINE !in buf[start..k]
    requires Tail(buf[..start]) == []
    ensures Lines(buf[..k + 1]) == Lines(buf[..start]) + [buf[start..k]] && Tail(buf[..k + 1]) == []
  {
    hide Lines;
    hide Tail;
    LineEnds(buf[..start], buf[start..k]);
    assert [] + buf[start..k] == buf[start..k];
    assert buf[..k + 1] == buf[..start] + buf[start..k] + [NEWLINE];
  }

  lemma NoMoreLines(buf: Bytes, start: nat)
    requires start <= |buf| && NEWLINE !in buf[start..] && Tail(buf[..start]) == []
    ensures Lines(buf) == Lines(buf[..start]) && Tail(buf) == buf[start..]
  {
    hide Lines;
    hide Tail;
    NewlineFreeSuffix(buf[..start], buf[start..]);
    assert buf[..start] + buf[start..] == buf;
    assert [] + buf[start..] == buf[start..];
  }

  /** Cuts the complete lines off the front of a buffer. */
  method CutLines(buf: Bytes) returns (lines: seq<Bytes>, rest: Bytes)
    ensures lines == Lines(buf) && rest == Tail(buf)
  {
    lines := [];
    var start := 0;
    OpenStart();
    hide Lines;
    hide Tail;
    while true
      invariant 0 <= start <= |buf|
      invariant lines == Lines(buf[..start]) && Tail(buf[..start]) == []
      decreases |buf| - start
    {
      var nl := FindNewline(buf, start);
      if nl.None? {
        NoMoreLines(buf, start);
        break;
      }
      NextLine(buf, start, nl.value);
      lines := lines + [buf[start..nl.value]];
      start := nl.value + 1;
    }
    rest := buf[start..];
  }

  lemma OpenStart()
    ensures Lines([]) == [] && Tail([]) == []
  {
  }

  /** Messages framed by one side and cut into any chunks reach the other side as they were. */
  lemma AnyChunkingDeliversTheMessages(messages: seq<Bytes>, chunks: seq<Bytes>)
    requires NewlineFree(messages) && Concat(chunks) == Encoded(messages)
    ensures Lines(Concat(chunks)) == messages && Tail(Concat(chunks)) == []
  {
    EncodedDecodes(messages, []);
    assert Encoded(messages) + [] == Encoded(messages);
  }

  // ---------- one reply per request ----------

  datatype Reply = Line(line: Bytes, rest: Bytes) | Lost

  /** No chunk before the k-th was a closed peer, and each was needed: there was no newline yet. */
  ghost predicate Awaited(rbuf: Bytes, chunks: seq<Bytes>, k: nat)
    requires k <= |chunks|
  {
    forall i | 0 <= i < k :: chunks[i] != [] && NEWLINE !in rbuf + Concat(chunks[..i])
  }

  /** A newline comes before the peer closes and before the chunks end. */
  ghost predicate ReplyArrives(rbuf: Bytes, chunks: seq<Bytes>) {
    exists k | 0 <= k <= |chunks| :: Awaited(rbuf, chunks, k) && NEWLINE in rbuf + Concat(chunks[..k])
  }

  /** Where reading stopped decides whether a reply arrives at all. */
  lemma StoppedAt(rbuf: Bytes, chunks: seq<Bytes>, used: nat)
    requires used <= |chunks| && Awaited(rbuf, chunks, used)
    requires NEWLINE in rbuf + Concat(chunks[..used]) || used == |chunks| || chunks[used] == []
    ensures ReplyArrives(rbuf, chunks) <==> NEWLINE in rbuf + Concat(chunks[..used])
  {
    if ReplyArrives(rbuf, chunks) {
      var k :| 0 <= k <= |chunks| && Awaited(rbuf, chunks, k) && NEWLINE in rbuf + Concat(chunks[..k]);
      assert !(k < used) && !(k > used);
    }
  }

  /** Reads until a newline is buffered; an empty chunk is a closed peer, no chunk a timeout. */
  method ReadUntilNewline(rbuf: Bytes, chunks: seq<Bytes>) returns (buf: Bytes, used: nat)
    ensures used <= |chunks| && buf == rbuf + Concat(chunks[..used]) && Awaited(rbuf, chunks, used)
    ensures NEWLINE in buf || used == |chunks| || chunks[used] == []
  {
    hide Awaited;
    hide Concat;
    buf, used := rbuf, 0;
    NothingReadYet(rbuf, chunks);
    while NEWLINE !in buf && used < |chunks| && chunks[used] != []
      invariant used <= |chunks| && buf == rbuf + Concat(chunks[..used]) && Awaited(rbuf, chunks, used)
    {
      OneMoreChunk(rbuf, chunks, used);
      buf := buf + chunks[used];
      used := used + 1;
    }
  }

  lemma NothingReadYet(rbuf: Bytes, chunks: seq<Bytes>)
    ensures rbuf + Concat(chunks[..0]) == rbuf && Awaited(rbuf, chunks, 0)
  {
  }

  lemma OneMoreChunk(rbuf: Bytes, chunks: seq<Bytes>, k: nat)
    requires k < |chunks| && chunks[k] != [] && Awaited(rbuf, chunks, k)
    requires NEWLINE !in rbuf + Concat(chunks[..k])
    ensures Awaited(rbuf, chunks, k + 1)
    ensures rbuf + Concat(chunks[..k]) + chunks[k] == rbuf + Concat(chunks[..k + 1])
  {
    ConcatAppend(chunks[..k], chunks[k]);
    assert chunks[..k + 1] == chunks[..k] + [chunks[k]];
    hide Concat;
  }

  /** One reply line, split off what was read; what follows it stays buffered. */
  method ReadReply(rbuf: Bytes, chunks: seq<Bytes>) returns (reply: Reply, used: nat)
    ensures used <= |chunks| && Awaited(rbuf, chunks, used)
    ensures reply.Line? <==> ReplyArrives(rbuf, chunks)
    ensures match reply
      case Line(line, rest) =>
        NEWLINE !in line && line + [NEWLINE] + rest == rbuf + Concat(chunks[..used])
      case Lost =>
        NEWLINE !in rbuf + Concat(chunks[..used]) && (used == |chunks| || chunks[used] == [])
  {
    hide Awaited;
    hide ReplyArrives;
    var buf;
    buf, used := ReadUntilNewline(rbuf, chunks);
    StoppedAt(rbuf, chunks, used);
    assert buf[0..] == buf;
    var nl := FindNewline(buf, 0);
    if nl.None? {
      return Lost, used;
    }
    var k := nl.value;
    reply := Line(buf[..k], buf[k + 1..]);
    assert buf[..k] + [NEWLINE] + buf[k + 1..] == buf;
    assert buf[0..k] == buf[..k];
  }
}
