/** Frames over a byte stream: the network may split the bytes anywhere
    (client/lib/core/network/padded_socket.dart). */
module Reframing {
  import opened Wrappers
  import opened Padding
  import opened Transport

  /** The receiving half of a padded socket. */
  datatype Receiver = Receiver(buffer: Bytes, reader: Reader)

  function Drain(r: Receiver): Receiver
    decreases |r.buffer|
  {
    if |r.buffer| < FRAME_SIZE then r
    else Drain(Receiver(r.buffer[FRAME_SIZE..], Accept(r.reader, Decode(r.buffer[..FRAME_SIZE]))))
  }

  function Feed(r: Receiver, data: Bytes): Receiver {
    Drain(r.(buffer := r.buffer + data))
  }

  function FeedAll(r: Receiver, chunks: seq<Bytes>): Receiver
    decreases |chunks|
  {
    if chunks == [] then r else FeedAll(Feed(r, chunks[0]), chunks[1..])
  }

  lemma {:induction false} DrainResidue(r: Receiver)
    ensures |Drain(r).buffer| < FRAME_SIZE
    ensures |r.buffer| < FRAME_SIZE ==> Drain(r) == r
    decreases |r.buffer|
  {
    if |r.buffer| >= FRAME_SIZE {
      DrainResidue(Receiver(r.buffer[FRAME_SIZE..], Accept(r.reader, Decode(r.buffer[..FRAME_SIZE]))));
    }
  }

  /** Draining early changes nothing about what later bytes give. */
  lemma {:induction false} DrainThenFeed(r: Receiver, data: Bytes)
    ensures Feed(Drain(r), data) == Feed(r, data)
    decreases |r.buffer|
  {
    if |r.buffer| >= FRAME_SIZE {
      var next := Receiver(r.buffer[FRAME_SIZE..], Accept(r.reader, Decode(r.buffer[..FRAME_SIZE])));
      DrainThenFeed(next, data);
      var whole := r.buffer + data;
      assert whole[..FRAME_SIZE] == r.buffer[..FRAME_SIZE];
      assert whole[FRAME_SIZE..] == r.buffer[FRAME_SIZE..] + data;
    }
  }

  /** Chunking invariance: any split of a byte stream gives the same messages, the same
      message under way and the same residue, which is shorter than a frame. */
  lemma {:induction false} ChunkingInvariance(r: Receiver, chunks: seq<Bytes>)
    requires |r.buffer| < FRAME_SIZE
    ensures FeedAll(r, chunks) == Feed(r, Concat(chunks))
    ensures |FeedAll(r, chunks).buffer| < FRAME_SIZE
    decreases |chunks|
  {
    if chunks == [] {
      assert r.buffer + [] == r.buffer;
    } else {
      var r1 := r.(buffer := r.buffer + chunks[0]);
      DrainResidue(r1);
      ChunkingInvariance(Feed(r, chunks[0]), chunks[1..]);
      DrainThenFeed(r1, Concat(chunks[1..]));
      assert r1.buffer + Concat(chunks[1..]) == r.buffer + Concat(chunks);
    }
  }

  // ---- From one end to the other ----

  ghost predicate Encodable(ps: seq<Option<Piece>>) {
    forall p <- ps :: p.Some? ==> |p.value.payload| <= MAX_PAYLOAD
  }

  /** The byte stream of a sequence of ticks, with any random filling. */
  function Wire(ps: seq<Option<Piece>>, noise: seq<Noise>): Bytes
    requires |noise| == |ps| && Encodable(ps)
  {
    if ps == [] then [] else FrameOf(ps[0], noise[0]) + Wire(ps[1..], noise[1..])
  }

  lemma {:induction false} WireReads(ps: seq<Option<Piece>>, noise: seq<Noise>, reader: Reader)
    requires |noise| == |ps| && Encodable(ps)
    ensures Feed(Receiver([], reader), Wire(ps, noise)) == Receiver([], AcceptAll(reader, ps))
    decreases |ps|
  {
    if ps != [] {
      var frame, rest := FrameOf(ps[0], noise[0]), Wire(ps[1..], noise[1..]);
      FrameOfDecodes(ps[0], noise[0]);
      assert [] + (frame + rest) == frame + rest;
      assert (frame + rest)[..FRAME_SIZE] == frame && (frame + rest)[FRAME_SIZE..] == rest;
      assert [] + rest == rest;
      WireReads(ps[1..], noise[1..], Accept(reader, ps[0]));
    }
  }

  lemma {:induction false} AcceptAllAppend(r: Reader, ps: seq<Option<Piece>>, p: Option<Piece>)
    ensures AcceptAll(r, ps + [p]) == Accept(AcceptAll(r, ps), p)
    decreases |ps|
  {
    if ps == [] {
      assert [] + [p] == [p] && [p][1..] == [];
    } else {
      assert (ps + [p])[1..] == ps[1..] + [p];
      AcceptAllAppend(Accept(r, ps[0]), ps[1..], p);
    }
  }

  lemma {:induction false} RunReader(events: seq<Event>)
    ensures Run(IDLE, events).reader == AcceptAll(Reader([], []), Run(IDLE, events).emitted)
    ensures Encodable(Run(IDLE, events).emitted)
  {
    if events != [] {
      var before := events[..|events| - 1];
      RunReader(before);
      var l := Run(IDLE, before);
      if events[|events| - 1].Ticks? {
        AcceptAllAppend(Reader([], []), l.emitted, Tick(l.pump).1);
      }
    }
  }

  /** End to end: whatever was sent, however the ticks fell, whatever the random filling
      and however the network split the bytes, the receiver ends up with exactly the
      non-empty messages sent, in order, except those still in the sender's pump. */
  lemma EndToEnd(events: seq<Event>, noise: seq<Noise>, chunks: seq<Bytes>)
    requires |noise| == |Run(IDLE, events).emitted| && Encodable(Run(IDLE, events).emitted)
    requires Concat(chunks) == Wire(Run(IDLE, events).emitted, noise)
    ensures var l := Run(IDLE, events); var r := FeedAll(Receiver([], Reader([], [])), chunks);
      && NonEmpty(l.sent) == r.reader.inbox + ToCome(l)
      && (Backlog(l.pump) == 0 ==> r == Receiver([], Reader([], NonEmpty(l.sent))))
  {
    var l := Run(IDLE, events);
    RoundTrip(events);
    RunReader(events);
    ChunkingInvariance(Receiver([], Reader([], [])), chunks);
    WireReads(l.emitted, noise, Reader([], []));
    TickReducesBacklog(l.pump);
  }

  /** Pieces as they come out of real frames. */
  function Carried(pieces: seq<Piece>): seq<Option<Piece>> {
    if pieces == [] then [] else [Some(pieces[0])] + Carried(pieces[1..])
  }

  lemma AcceptFirst(r: Reader, p: Piece, rest: seq<Piece>)
    ensures AcceptAll(r, Carried([p] + rest)) == AcceptAll(Accept(r, Some(p)), Carried(rest))
  {
    assert ([p] + rest)[1..] == rest;
    assert ([Some(p)] + Carried(rest))[1..] == Carried(rest);
  }

  lemma {:induction false} LeftoversAreGlued(r: Reader, message: Bytes)
    requires message != []
    ensures AcceptAll(r, Carried(Pieces(message))) == Reader([], r.inbox + [r.assembly + message])
    decreases |message|
  {
    if |message| <= MAX_PAYLOAD {
      AcceptFirst(r, Piece(message, false), []);
      assert [Piece(message, false)] + [] == Pieces(message);
    } else {
      var head, rest := message[..MAX_PAYLOAD], message[MAX_PAYLOAD..];
      AcceptFirst(r, Piece(head, true), Pieces(rest));
      LeftoversAreGlued(r.(assembly := r.assembly + head), rest);
      assert r.assembly + head + rest == r.assembly + message;
    }
  }

  lemma GluedIsIntact(inbox: seq<Bytes>, leftover: Bytes, message: Bytes)
    ensures inbox + [leftover + message] == inbox + [message] <==> leftover == []
  {
    if leftover == [] {
      assert leftover + message == message;
    } else {
      assert |leftover + message| != |message|;
      assert (inbox + [leftover + message])[|inbox|] != (inbox + [message])[|inbox|];
    }
  }

  /** A connection that starts with leftovers of an earlier one glues them to the first
      message; that message arrives intact exactly when there are none. */
  lemma LeftoversPrefix(r: Reader, message: Bytes)
    requires message != []
    ensures AcceptAll(r, Carried(Pieces(message))) == Reader([], r.inbox + [r.assembly + message])
    ensures AcceptAll(r, Carried(Pieces(message))).inbox == r.inbox + [message] <==> r.assembly == []
  {
    LeftoversAreGlued(r, message);
    GluedIsIntact(r.inbox, r.assembly, message);
  }

  // ---- The socket ----

  class PaddedSocket {
    var outbox: seq<Bytes>
    var pending: Bytes
    var assembly: Bytes
    var incomingBuffer: Bytes
    /** Messages handed to the listeners, and bytes written to the socket. */
    var inbox: seq<Bytes>
    var wire: Bytes
    var closed: bool

    function Sending(): Pump
      reads this
    {
      Pump(pending, outbox)
    }

    function Receiving(): Receiver
      reads this
    {
      Receiver(incomingBuffer, Reader(assembly, inbox))
    }

    constructor ()
      ensures Sending() == Pump([], []) && Receiving() == Receiver([], Reader([], [])) && wire == [] && !closed
    {
      outbox, pending, assembly, incomingBuffer, inbox, wire, closed := [], [], [], [], [], [], false;
    }

    method Send(payload: Bytes)
      modifies this`outbox
      ensures outbox == if closed then old(outbox) else old(outbox) + [payload]
    {
      if closed { return; }
      outbox := outbox + [payload];
    }

    method HandleBytes(data: Bytes)
      modifies this`incomingBuffer, this`assembly, this`inbox
      ensures Receiving() == Feed(old(Receiving()), data)
    {
      incomingBuffer := incomingBuffer + data;
      while true
        invariant Drain(Receiving()) == Feed(old(Receiving()), data)
        decreases |incomingBuffer|
      {
        var bytes := incomingBuffer;
        if |bytes| < FRAME_SIZE { return; }
        var frame := bytes[..FRAME_SIZE];
        incomingBuffer := bytes[FRAME_SIZE..];
        var decoded := Decode(frame);
        if decoded.None? { continue; }
        assembly := assembly + decoded.value.payload;
        if decoded.value.hasMore { continue; }
        inbox := inbox + [assembly];
        assembly := [];
      }
    }

    /** Every tick of an open socket writes exactly one frame. */
    method OnTick(noise: Noise)
      modifies this`outbox, this`pending, this`wire
      ensures closed ==> Sending() == old(Sending()) && wire == old(wire)
      ensures !closed ==>
        var (pump, p) := Tick(old(Sending()));
        Sending() == pump && wire == old(wire) + FrameOf(p, noise) && |wire| == |old(wire)| + FRAME_SIZE
    {
      if closed { return; }
      if pending == [] {
        if outbox != [] { pending, outbox := outbox[0], outbox[1..]; }
      }
      FrameOfDecodes(Tick(old(Sending())).1, noise);
      if pending != [] {
        var end := if |pending| > MAX_PAYLOAD then MAX_PAYLOAD else |pending|;
        var slice := pending[..end];
        var hasMore := end < |pending|;
        pending := pending[end..];
        var frame := EncodeFrame(slice, hasMore, noise);
        wire := wire + frame.value[..];
      } else {
        var frame := DummyFrame(noise);
        wire := wire + frame[..];
      }
    }

    method Close()
      modifies this`closed
      ensures closed
    {
      closed := true;
    }
  }
}
