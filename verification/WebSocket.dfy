/**
 client/ws.go: one MQTT packet is one WebSocket message on the way out, and the
 messages on the way in are one stream of bytes (section 6 of MQTT Version 5.0).
*/
module WebSocket {
  import opened Wrappers

  type Byte = bv8

  function Concat(chunks: seq<seq<Byte>>): seq<Byte> {
    if chunks == [] then [] else Concat(chunks[..|chunks| - 1]) + chunks[|chunks| - 1]
  }

  lemma ConcatOne(chunks: seq<seq<Byte>>, last: seq<Byte>)
    ensures Concat(chunks + [last]) == Concat(chunks) + last
  {
    assert (chunks + [last])[..|chunks|] == chunks;
  }

  lemma {:induction false} ConcatFirst(first: seq<Byte>, rest: seq<seq<Byte>>)
    ensures Concat([first] + rest) == first + Concat(rest)
  {
    if rest == [] {
      assert [first] + rest == [] + [first];
      ConcatOne([], first);
    } else {
      var n, chunks := |rest| - 1, [first] + rest;
      ConcatFirst(first, rest[..n]);
      assert chunks[..n + 1] == [first] + rest[..n] && chunks[n + 1] == rest[n];
      assert first + (Concat(rest[..n]) + rest[n]) == first + Concat(rest[..n]) + rest[n];
    }
  }

  // ----- The write side of a connection -----

  // buf, locked, and the messages handed to the socket so far.
  datatype Writer = Writer(buf: seq<Byte>, locked: bool, sent: seq<seq<Byte>>)

  function AfterLock(w: Writer): Writer {
    w.(buf := [], locked := true)
  }

  // Write: into the buffer while locked, otherwise one message of its own.
  function AfterWrite(w: Writer, p: seq<Byte>): Writer {
    if w.locked then w.(buf := w.buf + p) else w.(sent := w.sent + [p])
  }

  function AfterUnlock(w: Writer): Writer {
    if |w.buf| > 0 then Writer([], false, w.sent + [w.buf]) else w.(locked := false)
  }

  // ----- The read side -----

  // What is left of the current message (None for a nil reader), and the
  // messages still to arrive on the connection.
  datatype Reader = Reader(current: Option<seq<Byte>>, inbox: seq<seq<Byte>>)

  function Unread(r: Reader): seq<Byte> {
    (if r.current.Some? then r.current.value else []) + Concat(r.inbox)
  }

  datatype ReadError = EndOfFile | Transport

  lemma TakeAndLeave(rest: seq<Byte>, n: nat, later: seq<Byte>)
    requires n <= |rest|
    ensures rest[..n] + (rest[n..] + later) == rest + later
    ensures n == |rest| ==> rest[n..] + later == later
  {
  }

  // ----- A run of Reads -----

  // One statement of a Read in progress, as the socket answers it. `out` is what
  // all Reads so far returned.
  datatype Stream = Stream(reader: Reader, reading: Option<nat>, out: seq<Byte>, failed: bool)

  datatype ReadAction =
    | Call(room: nat)
    | Next(ok: bool)
    | Chunk(n: nat, eof: bool, error: bool)

  function ReadStep(s: Stream, a: ReadAction): Stream {
    match a
    case Call(room) => if s.reading.Some? then s else s.(reading := Some(room), failed := false)
    case Next(ok) =>
      if s.reading.None? || s.reader.current.Some? then s
      else if !ok || s.reader.inbox == [] then s.(reading := None, failed := true)
      else s.(reader := Reader(Some(s.reader.inbox[0]), s.reader.inbox[1..]))
    case Chunk(n, eof, error) =>
      if s.reading.None? || s.reader.current.None? || n > s.reading.value || n > |s.reader.current.value|
         || (eof && n != |s.reader.current.value|) then s else
      var rest := s.reader.current.value;
      var taken := s.(out := s.out + rest[..n]);
      if eof then
        var nil := taken.(reader := s.reader.(current := None));
        if n > 0 then nil.(reading := None) else nil
      else taken.(reader := s.reader.(current := Some(rest[n..])), reading := None, failed := error)
  }

  function ReadExec(s: Stream, actions: seq<ReadAction>): Stream {
    if actions == [] then s else ReadStep(ReadExec(s, actions[..|actions| - 1]), actions[|actions| - 1])
  }

  lemma ReadStepKeepsTheStream(s: Stream, a: ReadAction)
    ensures ReadStep(s, a).out + Unread(ReadStep(s, a).reader) == s.out + Unread(s.reader)
  {
    var inbox := s.reader.inbox;
    if a.Next? && inbox != [] {
      ConcatFirst(inbox[0], inbox[1..]);
      assert inbox == [inbox[0]] + inbox[1..];
    } else if a.Chunk? && s.reader.current.Some? && a.n <= |s.reader.current.value| {
      TakeAndLeave(s.reader.current.value, a.n, Concat(inbox));
      assert (s.out + s.reader.current.value[..a.n]) + (s.reader.current.value[a.n..] + Concat(inbox))
        == s.out + (s.reader.current.value + Concat(inbox));
    }
  }

  lemma {:induction false} ReadsKeepTheStream(s: Stream, answers: seq<ReadAction>)
    ensures ReadExec(s, answers).out + Unread(ReadExec(s, answers).reader) == s.out + Unread(s.reader)
    ensures |ReadExec(s, answers).reader.inbox| <= |s.reader.inbox|
  {
    if answers != [] {
      var n := |answers| - 1;
      ReadsKeepTheStream(s, answers[..n]);
      ReadStepKeepsTheStream(ReadExec(s, answers[..n]), answers[n]);
    }
  }

  // What a Read that has returned has done to the stream.
  lemma ReadReturned(r: Reader, room: nat, answers: seq<ReadAction>, end: Stream)
    requires ReadExec(Stream(r, Some(room), [], false), answers) == end
    ensures end.out + Unread(end.reader) == Unread(r) && |end.reader.inbox| <= |r.inbox|
  {
    ReadsKeepTheStream(Stream(r, Some(room), [], false), answers);
    assert [] + Unread(r) == Unread(r);
  }

  lemma OneAnswerMore(start: Stream, before: seq<ReadAction>, asked: seq<ReadAction>, a: ReadAction)
    requires before <= asked
    ensures before <= asked + [a]
    ensures ReadExec(start, (asked + [a])[|before|..]) == ReadStep(ReadExec(start, asked[|before|..]), a)
  {
    var answers := (asked + [a])[|before|..];
    assert answers == asked[|before|..] + [a];
    assert answers[..|answers| - 1] == asked[|before|..];
  }

  // A chunk answered to a Read that has returned nothing so far.
  lemma AfterChunk(r: Reader, room: nat, n: nat, eof: bool, error: bool)
    requires r.current.Some? && n <= room && n <= |r.current.value| && (eof ==> n == |r.current.value|)
    ensures ReadStep(Stream(r, Some(room), [], false), Chunk(n, eof, error)) ==
      if !eof then Stream(r.(current := Some(r.current.value[n..])), None, r.current.value[..n], error)
      else Stream(r.(current := None), if n > 0 then None else Some(room), r.current.value[..n], false)
  {
    assert [] + r.current.value[..n] == r.current.value[..n];
  }

  class WsConn {
    var held: bool
    var writer: Writer
    var reader: Reader
    // What the socket has answered to the reader so far.
    ghost var answers: seq<ReadAction>

    constructor (inbox: seq<seq<Byte>>)
      ensures !held && writer == Writer([], false, []) && reader == Reader(None, inbox) && answers == []
    {
      held, writer, reader := false, Writer([], false, []), Reader(None, inbox);
      answers := [];
    }

    // wmu is taken for the whole packet; a caller waits until it is free.
    method Lock()
      requires !held
      modifies `held, `writer
      ensures held && writer == AfterLock(old(writer))
    {
      held := true;
      writer := writer.(buf := []);
      writer := writer.(locked := true);
    }

    method Write(p: seq<Byte>) returns (n: nat)
      requires writer.locked || !held
      modifies `writer
      ensures n == |p| && writer == AfterWrite(old(writer), p)
    {
      if writer.locked {
        writer := writer.(buf := writer.buf + p);
        return |p|;
      }
      writer := writer.(sent := writer.sent + [p]);
      return |p|;
    }

    method Unlock()
      requires held
      modifies `held, `writer
      ensures !held && writer == AfterUnlock(old(writer))
    {
      writer := writer.(locked := false);
      if |writer.buf| > 0 {
        writer := writer.(sent := writer.sent + [writer.buf]);
        writer := writer.(buf := []);
      }
      held := false;
    }

    // The socket: the next message, or an error once there is none left or
    // whenever the transport fails.
    method NextReader() returns (err: Option<ReadError>)
      modifies `reader, `answers
      ensures answers == old(answers) + [Next(err.None?)]
      ensures err == None || err == Some(Transport)
      ensures err.Some? ==> reader == old(reader).(current := None)
      ensures err.None? ==>
        old(reader).inbox != [] && reader == Reader(Some(old(reader).inbox[0]), old(reader).inbox[1..])
    {
      var broken: bool := *;
      if reader.inbox == [] || broken {
        reader := reader.(current := None);
        answers := answers + [Next(false)];
        return Some(Transport);
      }
      answers := answers + [Next(true)];
      reader := Reader(Some(reader.inbox[0]), reader.inbox[1..]);
      return None;
    }

    // Any legal io.Reader over the current message: any chunk that fits, no data
    // at all, and end-of-file with the last bytes or after them.
    method ReadChunk(p: array<Byte>) returns (n: nat, err: Option<ReadError>)
      requires reader.current.Some?
      modifies `reader, `answers, p
      ensures answers == old(answers) + [Chunk(n, err == Some(EndOfFile), err == Some(Transport))]
      ensures n <= p.Length && n <= |old(reader).current.value|
      ensures p[..n] == old(reader).current.value[..n]
      ensures reader == old(reader).(current := Some(old(reader).current.value[n..]))
      ensures err == Some(EndOfFile) ==> n == |old(reader).current.value|
      ensures err == None || err == Some(EndOfFile) || err == Some(Transport)
    {
      var rest := reader.current.value;
      var room := if p.Length < |rest| then p.Length else |rest|;
      n :| 0 <= n <= room;
      for i := 0 to n
        invariant reader == old(reader) && answers == old(answers)
        invariant p[..i] == rest[..i]
      {
        p[i] := rest[i];
      }
      reader := reader.(current := Some(rest[n..]));
      var ended: bool, broken: bool := *, *;
      err := if ended && n == |rest| then Some(EndOfFile) else if broken then Some(Transport) else None;
      answers := answers + [Chunk(n, err == Some(EndOfFile), err == Some(Transport))];
    }

    // Whatever Read returns are the next unread bytes, and the rest is unread
    // still; the loop ends because each turn that continues uses up a message. A Read
    // is one call of the stream above: it returns when the socket's answers make that
    // return, with the bytes they bring, and with an error exactly when they fail.
    method Read(p: array<Byte>) returns (n: nat, err: Option<ReadError>)
      modifies `reader, `answers, p
      ensures n <= p.Length
      ensures p[..n] + Unread(reader) == Unread(old(reader))
      ensures err == None || err == Some(Transport)
      ensures |reader.inbox| <= |old(reader).inbox|
      ensures old(answers) <= answers
      ensures ReadExec(Stream(old(reader), Some(p.Length), [], false), answers[|old(answers)|..])
        == Stream(reader, None, p[..n], err.Some?)
      ensures old(reader) == Reader(None, []) ==> n == 0 && err == Some(Transport)
      ensures err == None && n == 0 ==> reader.current.Some?
    {
      ghost var before, start := answers, Stream(reader, Some(p.Length), [], false);
      while true
        invariant before <= answers
        invariant ReadExec(start, answers[|before|..]) == start.(reader := reader)
        invariant start.reader == Reader(None, []) ==> reader == start.reader
        decreases |reader.inbox| + if reader.current.Some? then 1 else 0
      {
        if reader.current.None? {
          ghost var asked := answers;
          var failed := NextReader();
          OneAnswerMore(start, before, asked, Next(failed.None?));
          if failed.Some? {
            ReadReturned(start.reader, p.Length, answers[|before|..], Stream(reader, None, [], true));
            return 0, failed;
          }
        }
        ghost var was, asked := reader, answers;
        n, err := ReadChunk(p);
        OneAnswerMore(start, before, asked, Chunk(n, err == Some(EndOfFile), err == Some(Transport)));
        AfterChunk(was, p.Length, n, err == Some(EndOfFile), err == Some(Transport));
        if err == Some(EndOfFile) {
          reader := reader.(current := None);
          if n > 0 {
            ReadReturned(start.reader, p.Length, answers[|before|..], Stream(reader, None, p[..n], false));
            return n, None;
          }
        } else {
          ReadReturned(start.reader, p.Length, answers[|before|..], Stream(reader, None, p[..n], err.Some?));
          return n, err;
        }
      }
    }
  }

  // A write outside the lock puts on the socket what a packet of that one buffer
  // would, except that an empty one sends an empty message.
  lemma UnlockedWriteIsAPacketExactlyWhen(w: Writer, p: seq<Byte>)
    requires !w.locked && w.buf == []
    ensures AfterWrite(w, p) == AfterUnlock(AfterWrite(AfterLock(w), p)) <==> p != []
    ensures AfterWrite(w, p).sent == w.sent + [p]
  {
    assert [] + p == p;
    if p == [] {
      assert |AfterWrite(w, p).sent| == |w.sent| + 1;
    }
  }

  // ----- Many writers -----

  // A packet under way belongs to the writer that holds the lock. packets lists
  // every packet begun, in lock order, as the buffers written for it.
  datatype Wire = Wire(owner: Option<nat>, writer: Writer, packets: seq<seq<seq<Byte>>>)

  datatype Action =
    | LockBy(writer: nat)
    | WriteBy(writer: nat, buffer: seq<Byte>)
    | UnlockBy(writer: nat)

  // Writers keep to Lock, Write*, Unlock: others wait, and a write outside the
  // lock does not happen.
  function Step(w: Wire, a: Action): Wire {
    match a
    case LockBy(i) =>
      if w.owner.Some? then w else Wire(Some(i), AfterLock(w.writer), w.packets + [[]])
    case WriteBy(i, p) =>
      if w.owner != Some(i) || w.packets == [] then w else
      var n := |w.packets| - 1;
      w.(writer := AfterWrite(w.writer, p), packets := w.packets[n := w.packets[n] + [p]])
    case UnlockBy(i) =>
      if w.owner != Some(i) then w else w.(owner := None, writer := AfterUnlock(w.writer))
  }

  function Exec(w: Wire, actions: seq<Action>): Wire {
    if actions == [] then w else Step(Exec(w, actions[..|actions| - 1]), actions[|actions| - 1])
  }

  const FRESH := Wire(None, Writer([], false, []), [])

  // The messages a list of packets should become: one each, none for an empty one.
  function Messages(packets: seq<seq<seq<Byte>>>): seq<seq<Byte>> {
    if packets == [] then []
    else
      var n := |packets| - 1;
      var bytes := Concat(packets[n]);
      Messages(packets[..n]) + if |bytes| > 0 then [bytes] else []
  }

  predicate Inv(w: Wire) {
    && w.writer.locked == w.owner.Some?
    && if w.owner.None? then w.writer.buf == [] && w.writer.sent == Messages(w.packets)
       else
         && w.packets != []
         && w.writer.buf == Concat(w.packets[|w.packets| - 1])
         && w.writer.sent == Messages(w.packets[..|w.packets| - 1])
  }

  lemma StepKeepsInv(w: Wire, a: Action)
    requires Inv(w)
    ensures Inv(Step(w, a))
  {
    var w' := Step(w, a);
    match a {
      case LockBy(_) =>
        if w' != w {
          assert w'.packets[..|w.packets|] == w.packets;
        }
      case WriteBy(_, p) =>
        if w' != w {
          var n := |w.packets| - 1;
          assert w'.packets[..n] == w.packets[..n];
          assert (w.packets[n] + [p])[..|w.packets[n]|] == w.packets[n];
        }
      case UnlockBy(_) =>
    }
  }

  // However writers interleave, the messages handed to the socket are, in lock
  // order, one for each finished packet that is not empty, holding all its
  // buffers and nothing else; and the buffer is empty whenever the lock is free.
  lemma {:induction false} OneMessagePerPacket(actions: seq<Action>)
    ensures Inv(Exec(FRESH, actions))
    ensures var w := Exec(FRESH, actions);
      && (w.owner.None? ==> w.writer.buf == [] && w.writer.sent == Messages(w.packets))
      && (w.owner.Some? ==> w.packets != [] && w.writer.sent == Messages(w.packets[..|w.packets| - 1]))
  {
    if actions != [] {
      OneMessagePerPacket(actions[..|actions| - 1]);
      StepKeepsInv(Exec(FRESH, actions[..|actions| - 1]), actions[|actions| - 1]);
    }
  }

  function Flatten(packets: seq<seq<seq<Byte>>>): seq<Byte> {
    if packets == [] then [] else Flatten(packets[..|packets| - 1]) + Concat(packets[|packets| - 1])
  }

  lemma {:induction false} MessagesCarryThePackets(packets: seq<seq<seq<Byte>>>)
    ensures Concat(Messages(packets)) == Flatten(packets)
  {
    if packets != [] {
      var n := |packets| - 1;
      var before, bytes := Messages(packets[..n]), Concat(packets[n]);
      MessagesCarryThePackets(packets[..n]);
      ConcatOne(before, bytes);
      if bytes == [] {
        assert Messages(packets) == before;
        assert Flatten(packets) == Flatten(packets[..n]) + bytes;
      }
    }
  }

  predicate IsPacket(bytes: seq<Byte>, packets: seq<seq<seq<Byte>>>) {
    exists k | 0 <= k < |packets| :: Concat(packets[k]) == bytes
  }

  lemma IsPacketExtends(bytes: seq<Byte>, packets: seq<seq<seq<Byte>>>)
    requires packets != []
    ensures IsPacket(bytes, packets) <==>
      IsPacket(bytes, packets[..|packets| - 1]) || Concat(packets[|packets| - 1]) == bytes
  {
    var before := packets[..|packets| - 1];
    if k :| 0 <= k < |before| && Concat(before[k]) == bytes {
      assert Concat(packets[k]) == bytes;
    }
    if k :| 0 <= k < |before| && Concat(packets[k]) == bytes {
      assert Concat(before[k]) == bytes;
    }
  }

  // No message mixes two packets: the messages are the bytes of the packets that
  // have any.
  lemma {:induction false} MessagesAreWholePackets(packets: seq<seq<seq<Byte>>>, bytes: seq<Byte>)
    ensures bytes in Messages(packets) <==> bytes != [] && IsPacket(bytes, packets)
  {
    if packets != [] {
      MessagesAreWholePackets(packets[..|packets| - 1], bytes);
      IsPacketExtends(bytes, packets);
    }
  }

  // ----- What successive Reads return -----

  // For any messages and any legal reader, what successive Reads return is a
  // prefix of the messages put together, nothing lost and nothing twice; it is
  // all of them when a Read finds no message left.
  lemma {:induction false} ReadsReturnTheStream(messages: seq<seq<Byte>>, actions: seq<ReadAction>)
    ensures var s := ReadExec(Stream(Reader(None, messages), None, [], false), actions);
      && s.out + Unread(s.reader) == Concat(messages)
      && s.out <= Concat(messages)
      && (s.reader == Reader(None, []) ==> s.out == Concat(messages))
  {
    if actions == [] {
      assert Unread(Reader(None, messages)) == Concat(messages);
    } else {
      ReadsReturnTheStream(messages, actions[..|actions| - 1]);
      ReadStepKeepsTheStream(ReadExec(Stream(Reader(None, messages), None, [], false), actions[..|actions| - 1]),
                             actions[|actions| - 1]);
    }
  }

  function Left(r: Reader): nat {
    2 * |r.inbox| + if r.current.Some? then 1 else 0
  }

  // Inside one Read every answer of the socket either returns or brings the loop
  // closer to its end.
  lemma EveryAnswerIsProgress(s: Stream, a: ReadAction)
    requires s.reading.Some? && !a.Call? && ReadStep(s, a) != s
    ensures ReadStep(s, a).reading.None? || Left(ReadStep(s, a).reader) < Left(s.reader)
  {
  }

  // ----- Both ends of one connection -----

  // Writers at one end and a reader at the other, interleaved; the network has
  // delivered the first `delivered` of the messages sent.
  datatype Link = Link(wire: Wire, delivered: nat, stream: Stream)

  datatype LinkAction =
    | Send(action: Action)
    | Deliver
    | Receive(answer: ReadAction)

  const OPENED := Link(FRESH, 0, Stream(Reader(None, []), None, [], false))

  function LinkStep(l: Link, a: LinkAction): Link {
    match a
    case Send(action) => l.(wire := Step(l.wire, action))
    case Deliver =>
      if l.delivered >= |l.wire.writer.sent| then l else
      var reader := l.stream.reader;
      l.(delivered := l.delivered + 1,
         stream := l.stream.(reader := reader.(inbox := reader.inbox + [l.wire.writer.sent[l.delivered]])))
    case Receive(answer) => l.(stream := ReadStep(l.stream, answer))
  }

  function LinkExec(l: Link, actions: seq<LinkAction>): Link {
    if actions == [] then l else LinkStep(LinkExec(l, actions[..|actions| - 1]), actions[|actions| - 1])
  }

  // What was read and what is still to be read are what has been delivered.
  predicate LinkInv(l: Link) {
    && Inv(l.wire) && l.delivered <= |l.wire.writer.sent|
    && l.stream.out + Unread(l.stream.reader) == Concat(l.wire.writer.sent[..l.delivered])
  }

  lemma SendingOnlyAppends(w: Wire, a: Action)
    ensures w.writer.sent <= Step(w, a).writer.sent
  {
  }

  lemma InboxGrows(r: Reader, message: seq<Byte>)
    ensures Unread(r.(inbox := r.inbox + [message])) == Unread(r) + message
  {
    ConcatOne(r.inbox, message);
  }

  lemma PrefixGrows(sent: seq<seq<Byte>>, n: nat)
    requires n < |sent|
    ensures Concat(sent[..n + 1]) == Concat(sent[..n]) + sent[n]
  {
    assert sent[..n + 1][..n] == sent[..n];
  }

  lemma DeliveryExtends(l: Link)
    requires LinkInv(l) && l.delivered < |l.wire.writer.sent|
    ensures LinkInv(LinkStep(l, Deliver))
  {
    var reader, message := l.stream.reader, l.wire.writer.sent[l.delivered];
    InboxGrows(reader, message);
    PrefixGrows(l.wire.writer.sent, l.delivered);
    assert l.stream.out + (Unread(reader) + message) == (l.stream.out + Unread(reader)) + message;
  }

  lemma LinkStepKeepsInv(l: Link, a: LinkAction)
    requires LinkInv(l)
    ensures LinkInv(LinkStep(l, a))
  {
    match a {
      case Send(action) =>
        StepKeepsInv(l.wire, action);
        SendingOnlyAppends(l.wire, action);
        assert Step(l.wire, action).writer.sent[..l.delivered] == l.wire.writer.sent[..l.delivered];
      case Deliver =>
        if l.delivered < |l.wire.writer.sent| {
          DeliveryExtends(l);
        }
      case Receive(answer) => ReadStepKeepsTheStream(l.stream, answer);
    }
  }

  lemma {:induction false} LinkReachable(actions: seq<LinkAction>)
    ensures LinkInv(LinkExec(OPENED, actions))
  {
    if actions != [] {
      LinkReachable(actions[..|actions| - 1]);
      LinkStepKeepsInv(LinkExec(OPENED, actions[..|actions| - 1]), actions[|actions| - 1]);
    }
  }

  lemma {:induction false} ConcatOfAPrefix(chunks: seq<seq<Byte>>, n: nat)
    requires n <= |chunks|
    ensures Concat(chunks[..n]) <= Concat(chunks)
  {
    if n == |chunks| {
      assert chunks[..n] == chunks;
    } else {
      ConcatOfAPrefix(chunks[..|chunks| - 1], n);
      assert chunks[..|chunks| - 1][..n] == chunks[..n];
    }
  }

  // The packets whose bytes have been handed over in full.
  function Finished(w: Wire): seq<seq<seq<Byte>>> {
    if w.owner.Some? && w.packets != [] then w.packets[..|w.packets| - 1] else w.packets
  }

  // However writers, network and reader interleave, what has been read at any
  // moment is a prefix of the bytes of the finished packets in lock order, and all
  // of them once every message sent has arrived and been read.
  lemma PacketsComeBackInOrder(actions: seq<LinkAction>)
    ensures var l := LinkExec(OPENED, actions);
      var bytes := Flatten(Finished(l.wire));
      && l.stream.out <= bytes
      && (l.delivered == |l.wire.writer.sent| && l.stream.reader == Reader(None, []) ==> l.stream.out == bytes)
  {
    LinkReachable(actions);
    var l := LinkExec(OPENED, actions);
    var sent := l.wire.writer.sent;
    MessagesCarryThePackets(Finished(l.wire));
    assert sent == Messages(Finished(l.wire));
    ConcatOfAPrefix(sent, l.delivered);
    if l.delivered == |sent| {
      assert sent[..l.delivered] == sent;
    }
  }
}
