/** The tick-driven pumps and the reassembly loops (backend/internal/ws/conn.go,
    client/lib/core/network/padded_socket.dart and ws_client.dart). */
module Transport {
  import opened Wrappers
  import opened Padding

  /** The sending half of a connection: the rest of the message under way and the queue. */
  datatype Pump = Pump(pending: Bytes, outbox: seq<Bytes>)

  /** A queued message is taken up when nothing is under way. */
  function Load(p: Pump): Pump {
    if p.pending == [] && p.outbox != [] then Pump(p.outbox[0], p.outbox[1..]) else p
  }

  /** One frame's worth is taken off the message under way; nothing is a dummy frame. */
  function TakeOff(q: Pump): (Pump, Option<Piece>) {
    if q.pending == [] then (q, None)
    else
      var piece := PieceOf(q.pending, 0);
      (q.(pending := q.pending[|piece.payload|..]), Some(piece))
  }

  function Tick(p: Pump): (Pump, Option<Piece>) {
    TakeOff(Load(p))
  }

  /** The frame of one tick, given its random filling. */
  function FrameOf(p: Option<Piece>, noise: Noise): Bytes
    requires p.Some? ==> |p.value.payload| <= MAX_PAYLOAD
  {
    if p.None? then Dummy(noise) else Frame(p.value, noise)
  }

  lemma FrameOfDecodes(p: Option<Piece>, noise: Noise)
    requires p.Some? ==> |p.value.payload| <= MAX_PAYLOAD
    ensures |FrameOf(p, noise)| == FRAME_SIZE && Decode(FrameOf(p, noise)) == p
  {
    if p.Some? { DecodeInverts(p.value, noise); }
  }

  // ---- Runs of a connection ----

  datatype Event = Send(message: Bytes) | Ticks

  /** Both ends of a connection, everything sent and every frame's content so far. */
  datatype Link = Link(pump: Pump, reader: Reader, sent: seq<Bytes>, emitted: seq<Option<Piece>>)

  const IDLE := Link(Pump([], []), Reader([], []), [], [])

  function Step(l: Link, e: Event): Link {
    match e
    case Send(m) => l.(pump := l.pump.(outbox := l.pump.outbox + [m]), sent := l.sent + [m])
    case Ticks =>
      var (pump, p) := Tick(l.pump);
      l.(pump := pump, reader := Accept(l.reader, p), emitted := l.emitted + [p])
  }

  function Run(l: Link, events: seq<Event>): Link {
    if events == [] then l else Step(Run(l, events[..|events| - 1]), events[|events| - 1])
  }

  /** An empty message passes through a pump as a dummy frame, that is, not at all. */
  function NonEmpty(messages: seq<Bytes>): seq<Bytes> {
    if messages == [] then [] else (if messages[0] == [] then [] else [messages[0]]) + NonEmpty(messages[1..])
  }

  lemma {:induction false} NonEmptyAppend(a: seq<Bytes>, m: Bytes)
    ensures NonEmpty(a + [m]) == NonEmpty(a) + if m == [] then [] else [m]
  {
    if a == [] {
      assert a + [m] == [m] && [m][1..] == [];
    } else {
      assert (a + [m])[1..] == a[1..] + [m];
      NonEmptyAppend(a[1..], m);
    }
  }

  function UnderWay(l: Link): seq<Bytes> {
    if l.pump.pending == [] then [] else [l.reader.assembly + l.pump.pending]
  }

  /** What the receiver is still to get, the message under way first. */
  function ToCome(l: Link): seq<Bytes> {
    UnderWay(l) + NonEmpty(l.pump.outbox)
  }

  /** Conservation: every non-empty message sent is received, under way or queued, once
      and in order; what the receiver has assembled is the part already taken off. */
  ghost predicate Conserved(l: Link) {
    && NonEmpty(l.sent) == l.reader.inbox + ToCome(l)
    && (l.pump.pending == [] ==> l.reader.assembly == [])
  }

  lemma LoadBringsNothing(l: Link)
    requires l.pump.pending == [] ==> l.reader.assembly == []
    ensures ToCome(l.(pump := Load(l.pump))) == ToCome(l)
  {
    if l.pump.pending == [] && l.pump.outbox != [] {
      assert l.reader.assembly + l.pump.outbox[0] == l.pump.outbox[0];
    }
  }

  lemma LoadConserves(l: Link)
    requires Conserved(l)
    ensures Conserved(l.(pump := Load(l.pump)))
  {
    LoadBringsNothing(l);
  }

  /** A piece taken off moves from the pump to the receiver's assembly, or completes it. */
  lemma TakeOffConserves(l: Link, pump: Pump, piece: Piece)
    requires Conserved(l) && l.pump.pending != [] && TakeOff(l.pump) == (pump, Some(piece))
    ensures Conserved(l.(pump := pump, reader := Accept(l.reader, Some(piece))))
  {
    assert l.pump.pending == piece.payload + pump.pending;
    var l' := l.(pump := pump, reader := Accept(l.reader, Some(piece)));
    if piece.hasMore {
      assert l.reader.assembly + l.pump.pending == l'.reader.assembly + pump.pending;
    } else {
      assert pump.pending == [] && piece.payload == l.pump.pending;
      assert l'.reader.inbox == l.reader.inbox + UnderWay(l);
      assert ToCome(l') == NonEmpty(l.pump.outbox);
    }
  }

  lemma TickConserves(l: Link)
    requires Conserved(l)
    ensures Conserved(Step(l, Ticks))
  {
    var l1 := l.(pump := Load(l.pump));
    LoadConserves(l);
    if l1.pump.pending != [] {
      var (pump, p) := TakeOff(l1.pump);
      TakeOffConserves(l1, pump, p.value);
    }
  }

  /** Round trip: in every run, for any placement of ticks, the receiver has reassembled
      exactly the non-empty messages sent, in order, up to those still in the pump. */
  lemma {:induction false} RoundTrip(events: seq<Event>)
    ensures Conserved(Run(IDLE, events))
  {
    if events != [] {
      var before := events[..|events| - 1];
      RoundTrip(before);
      var l := Run(IDLE, before);
      match events[|events| - 1]
      case Send(m) =>
        NonEmptyAppend(l.sent, m);
        NonEmptyAppend(l.pump.outbox, m);
        assert ToCome(Step(l, Send(m))) == ToCome(l) + if m == [] then [] else [m];
      case Ticks =>
        TickConserves(l);
    }
  }

  // ---- What goes over the wire ----

  function Real(emitted: seq<Option<Piece>>): seq<Piece> {
    if emitted == [] then []
    else Real(emitted[..|emitted| - 1]) + (if emitted[|emitted| - 1].Some? then [emitted[|emitted| - 1].value] else [])
  }

  function AllPieces(messages: seq<Bytes>): seq<Piece> {
    if messages == [] then [] else Pieces(messages[0]) + AllPieces(messages[1..])
  }

  lemma {:induction false} AllPiecesAppend(a: seq<Bytes>, m: Bytes)
    ensures AllPieces(a + [m]) == AllPieces(a) + Pieces(m)
  {
    if a == [] {
      assert a + [m] == [m] && [m][1..] == [];
    } else {
      assert (a + [m])[1..] == a[1..] + [m];
      AllPiecesAppend(a[1..], m);
    }
  }

  /** The fragments of everything sent: those emitted, then those still to come. */
  ghost predicate Fragmented(l: Link) {
    AllPieces(l.sent) == Real(l.emitted) + Pieces(l.pump.pending) + AllPieces(l.pump.outbox)
  }

  lemma SendFragments(l: Link, m: Bytes)
    requires Fragmented(l)
    ensures Fragmented(Step(l, Send(m)))
  {
    AllPiecesAppend(l.sent, m);
    AllPiecesAppend(l.pump.outbox, m);
  }

  lemma RealAppend(emitted: seq<Option<Piece>>, p: Option<Piece>)
    ensures Real(emitted + [p]) == Real(emitted) + if p.Some? then [p.value] else []
  {
    assert (emitted + [p])[..|emitted|] == emitted;
  }

  lemma LoadPieces(p: Pump)
    ensures Pieces(Load(p).pending) + AllPieces(Load(p).outbox) == Pieces(p.pending) + AllPieces(p.outbox)
  {
  }

  lemma Regroup<T>(done: seq<T>, x: seq<T>, y: seq<T>, one: seq<T>, x': seq<T>, y': seq<T>)
    requires x + y == one + x' + y'
    ensures done + x + y == done + one + x' + y'
  {
    assert done + x + y == done + (x + y);
    assert done + one + x' + y' == done + (one + x' + y');
  }

  lemma TickFragments(l: Link)
    requires Fragmented(l)
    ensures Fragmented(Step(l, Ticks))
  {
    var q := Load(l.pump);
    var (pump, p) := TakeOff(q);
    var one := if p.Some? then [p.value] else [];
    LoadPieces(l.pump);
    TakeOffPieces(q);
    RealAppend(l.emitted, p);
    Regroup(Real(l.emitted), Pieces(l.pump.pending), AllPieces(l.pump.outbox), one, Pieces(pump.pending),
            AllPieces(pump.outbox));
  }

  /** In every run the real frames emitted are the fragments of the messages sent, in
      order, with dummies in between, up to the fragments still to come. */
  lemma {:induction false} EmitsFragments(events: seq<Event>)
    ensures var l := Run(IDLE, events);
      AllPieces(l.sent) == Real(l.emitted) + Pieces(l.pump.pending) + AllPieces(l.pump.outbox)
  {
    if events != [] {
      var before := events[..|events| - 1];
      EmitsFragments(before);
      match events[|events| - 1]
      case Send(m) => SendFragments(Run(IDLE, before), m);
      case Ticks => TickFragments(Run(IDLE, before));
    }
  }

  lemma TakeOffPieces(q: Pump)
    ensures var (q', p) := TakeOff(q);
      && Pieces(q.pending) == (if p.Some? then [p.value] else []) + Pieces(q'.pending)
      && q'.outbox == q.outbox
  {
    if q.pending != [] {
      PieceAt(q.pending, 0);
      assert q.pending[0..] == q.pending;
    }
  }

  // ---- Exact drain ----

  /** Ticks a queued message keeps the pump busy: one for an empty message, too. */
  function Cost(message: Bytes): nat {
    if message == [] then 1 else FramesNeeded(|message|)
  }

  function TotalCost(messages: seq<Bytes>): nat {
    if messages == [] then 0 else Cost(messages[0]) + TotalCost(messages[1..])
  }

  function Backlog(p: Pump): nat {
    FramesNeeded(|p.pending|) + TotalCost(p.outbox)
  }

  function TickTimes(p: Pump, n: nat): Pump
    decreases n
  {
    if n == 0 then p else TickTimes(Tick(p).0, n - 1)
  }

  /** Taking one frame's worth off leaves one frame less. */
  lemma FramesLess(length: nat)
    requires length > 0
    ensures var k := if length > MAX_PAYLOAD then MAX_PAYLOAD else length;
      FramesNeeded(length - k) == FramesNeeded(length) - 1
  {
  }

  lemma LoadBacklog(p: Pump)
    ensures var q := Load(p);
      if q.pending != [] then Backlog(q) == Backlog(p)
      else if p.outbox == [] then q.outbox == [] && Backlog(p) == 0
      else q.outbox == p.outbox[1..] && Backlog(p) == Backlog(q) + 1
  {
  }

  lemma TickReducesBacklog(p: Pump)
    ensures Backlog(Tick(p).0) == if Backlog(p) > 0 then Backlog(p) - 1 else 0
    ensures Backlog(p) == 0 <==> p == Pump([], [])
    ensures Tick(p).1.Some? <==> Load(p).pending != []
  {
    var q := Load(p);
    LoadBacklog(p);
    if q.pending != [] {
      FramesLess(|q.pending|);
      assert |q.pending[|PieceOf(q.pending, 0).payload|..]| == |q.pending| - |PieceOf(q.pending, 0).payload|;
    }
    BacklogEmpty(p);
  }

  lemma BacklogEmpty(p: Pump)
    ensures Backlog(p) == 0 <==> p == Pump([], [])
  {
    assert p.outbox != [] ==> TotalCost(p.outbox) >= Cost(p.outbox[0]) >= 1;
  }

  /** A backlog drains in exactly the sum of its messages' ticks: the pump is empty after
      `n` ticks if and only if `n` is at least that. */
  lemma {:induction false} DrainsExactly(p: Pump, n: nat)
    ensures TickTimes(p, n) == Pump([], []) <==> n >= Backlog(p)
    decreases n
  {
    TickReducesBacklog(p);
    if n > 0 { DrainsExactly(Tick(p).0, n - 1); }
  }

  function Emissions(p: Pump, n: nat): seq<Option<Piece>>
    decreases n
  {
    if n == 0 then [] else [Tick(p).1] + Emissions(Tick(p).0, n - 1)
  }

  /** A message of L >= 1 bytes goes out in ceil(L / 2045) consecutive real frames. */
  lemma {:induction false} MessageFrames(message: Bytes, rest: seq<Bytes>)
    requires message != []
    ensures var n := FramesNeeded(|message|); var p := Pump(message, rest);
      && TickTimes(p, n) == Pump([], rest)
      && |Emissions(p, n)| == n == |Pieces(message)|
      && forall i :: 0 <= i < n ==> Emissions(p, n)[i] == Some(Pieces(message)[i])
    decreases |message|
  {
    var p := Pump(message, rest);
    var n := FramesNeeded(|message|);
    TakeOffPieces(p);
    PiecesCount(message);
    var p' := Tick(p).0;
    if |message| > MAX_PAYLOAD {
      MessageFrames(p'.pending, rest);
      assert n == 1 + FramesNeeded(|p'.pending|);
    } else {
      assert n == 1 && p' == Pump([], rest);
      assert Emissions(p, 1) == [Tick(p).1] + Emissions(p', 0);
    }
  }
}
