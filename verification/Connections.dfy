/** The two ends of the relay connection: the server's Conn (backend/internal/ws/conn.go)
    and the client's WsClient (client/lib/core/network/ws_client.dart).  WebSocket keeps
    message boundaries, so each frame arrives whole. */
module Connections {
  import opened Wrappers
  import opened Padding
  import opened Transport

  const SEND_BUFFER_SIZE := 4096

  class Conn {
    /** The buffered channel, the write pump's rest, the read pump's assembly, and every
        completed byte string handed to the JSON decoder. */
    var send: seq<Bytes>
    var pending: Bytes
    var assembly: Bytes
    var handled: seq<Bytes>

    function Sending(): Pump
      reads this
    {
      Pump(pending, send)
    }

    function Reading(): Reader
      reads this
    {
      Reader(assembly, handled)
    }

    constructor ()
      ensures Sending() == Pump([], []) && Reading() == Reader([], [])
    {
      send, pending, assembly, handled := [], [], [], [];
    }

    /** Queues the marshalled envelope, or drops it when the channel is full. */
    method Send(raw: Bytes) returns (queued: bool)
      modifies this`send
      ensures queued <==> |old(send)| < 4096
      ensures send == if queued then old(send) + [raw] else old(send)
    {
      if |send| >= SEND_BUFFER_SIZE { return false; }
      send := send + [raw];
      return true;
    }

    /** One round of the write pump. */
    method WriteTick(noise: Noise) returns (frame: Bytes)
      modifies this`send, this`pending
      ensures (Sending(), Decode(frame)) == Tick(old(Sending()))
      ensures |frame| == 2048 && frame == FrameOf(Tick(old(Sending())).1, noise)
    {
      if pending == [] {
        if send != [] { pending, send := send[0], send[1..]; }
      }
      FrameOfDecodes(Tick(old(Sending())).1, noise);
      if pending != [] {
        var end := |pending|;
        if end > MAX_PAYLOAD { end := MAX_PAYLOAD; }
        var hasMore := end < |pending|;
        var f := EncodeFrame(pending[..end], hasMore, noise);
        pending := pending[end..];
        return f.value[..];
      }
      var f := DummyFrame(noise);
      return f[..];
    }

    /** One round of the read pump, for a WebSocket message of any kind and size. */
    method ReadMessage(isBinary: bool, raw: Bytes)
      modifies this`assembly, this`handled
      ensures Reading() == Accept(old(Reading()), if isBinary then Decode(raw) else None)
    {
      if !isBinary || |raw| != FRAME_SIZE { return; }
      DecodersAgree(raw);
      var r := DecodeFrame(raw);
      if r.Err? { return; }
      var (piece, isReal) := r.value;
      if !isReal { return; }
      assembly := assembly + piece.payload;
      if piece.hasMore { return; }
      handled := handled + [assembly];
      assembly := [];
    }
  }

  class WsClient {
    var channelOpen: bool
    var connected: bool
    var pumping: bool
    var closed: bool
    /** The present channel's sink, and the stream of received messages, are not closed. */
    var sinkOpen: bool
    var listening: bool
    var outbox: seq<Bytes>
    var pending: Bytes
    var assembly: Bytes
    var received: seq<Bytes>

    function Sending(): Pump
      reads this
    {
      Pump(pending, outbox)
    }

    function Reading(): Reader
      reads this
    {
      Reader(assembly, received)
    }

    constructor ()
      ensures Sending() == Pump([], []) && Reading() == Reader([], [])
      ensures !channelOpen && !connected && !pumping && !closed && !sinkOpen && listening
    {
      channelOpen, connected, pumping, closed := false, false, false, false;
      sinkOpen, listening := false, true;
      outbox, pending, assembly, received := [], [], [], [];
    }

    /** Connects for the first time or again.  The channel is replaced even when its handshake
        then fails; neither half of the protocol is cleared. */
    method Open(handshake: bool) returns (retry: bool)
      modifies this`channelOpen, this`connected, this`pumping, this`sinkOpen
      ensures channelOpen && sinkOpen && (retry <==> !handshake && !closed)
      ensures connected == if !handshake then false else if closed then old(connected) else true
      ensures pumping == (old(pumping) || (handshake && !closed))
    {
      channelOpen, sinkOpen := true, true;
      if !handshake {
        connected := false;
        return !closed;
      }
      if closed { return false; }
      connected := true;
      pumping := true;
      return false;
    }

    /** Stops the pump, closes the sink and the stream of messages. */
    method Close()
      modifies this`closed, this`pumping, this`sinkOpen, this`listening
      ensures closed && !pumping && !sinkOpen && !listening
    {
      closed := true;
      pumping := false;
      sinkOpen := false;
      listening := false;
    }

    method Send(raw: Bytes, compromised: bool)
      modifies this`outbox
      ensures outbox == if compromised then old(outbox) else old(outbox) + [raw]
    {
      if compromised { return; }
      outbox := outbox + [raw];
    }

    method OnTick(noise: Noise) returns (frame: Option<Bytes>)
      modifies this`outbox, this`pending
      ensures frame.Some? <==> channelOpen
      ensures frame.None? ==> Sending() == old(Sending())
      ensures frame.Some? ==>
        && (Sending(), Decode(frame.value)) == Tick(old(Sending()))
        && |frame.value| == 2048 && frame.value == FrameOf(Tick(old(Sending())).1, noise)
    {
      if !channelOpen { return None; }
      if pending == [] {
        if outbox != [] { pending, outbox := outbox[0], outbox[1..]; }
      }
      FrameOfDecodes(Tick(old(Sending())).1, noise);
      if pending != [] {
        var end := if |pending| > MAX_PAYLOAD then MAX_PAYLOAD else |pending|;
        var slice := pending[..end];
        var hasMore := end < |pending|;
        pending := pending[end..];
        var f := EncodeFrame(slice, hasMore, noise);
        return Some(f.value[..]);
      }
      var f := DummyFrame(noise);
      return Some(f[..]);
    }

    /** A message completed after the stream was closed goes nowhere. */
    method HandleFrame(raw: Bytes)
      modifies this`assembly, this`received
      ensures var r := Accept(old(Reading()), Decode(raw));
        Reading() == if listening then r else r.(inbox := old(received))
    {
      var decoded := Decode(raw);
      if decoded.None? { return; }
      assembly := assembly + decoded.value.payload;
      if decoded.value.hasMore { return; }
      if listening { received := received + [assembly]; }
      assembly := [];
    }
  }
}
