/** Length-prefixed frames of the device transfer (client/lib/core/transfer/transfer_crypto.dart). */
module TransferFraming {
  import opened Wrappers
  import opened Padding

  const PREFIX_BYTES := 4
  const PREFIX_RANGE := 0x1_0000_0000

  /** Big-endian 32-bit prefix; a longer frame's length wraps around. */
  function Prefix(length: nat): Bytes {
    var n := length % PREFIX_RANGE;
    [(n / 0x100_0000) as byte, (n / 0x1_0000 % 256) as byte, (n / 256 % 256) as byte, (n % 256) as byte]
  }

  function Uint32(b: Bytes): nat
    requires |b| >= PREFIX_BYTES
  {
    b[0] as nat * 0x100_0000 + b[1] as nat * 0x1_0000 + b[2] as nat * 256 + b[3] as nat
  }

  function WriteFrame(frame: Bytes): Bytes {
    Prefix(|frame|) + frame
  }

  /** The first complete frame of a buffer, and what is left of the buffer. */
  function TryRead(buffer: Bytes): (Option<Bytes>, Bytes) {
    if |buffer| < PREFIX_BYTES then (None, buffer)
    else
      var length := Uint32(buffer);
      if |buffer| < PREFIX_BYTES + length then (None, buffer)
      else (Some(buffer[PREFIX_BYTES..PREFIX_BYTES + length]), buffer[PREFIX_BYTES + length..])
  }

  lemma PrefixInverts(length: nat, rest: Bytes)
    ensures Uint32(Prefix(length) + rest) == length % PREFIX_RANGE
  {
    var n := length % PREFIX_RANGE;
    assert n / 0x1_0000 == n / 256 / 256 && n / 0x100_0000 == n / 256 / 256 / 256;
  }

  /** The layout: the length in four bytes, the highest first, and the frame. */
  lemma WriteLayout(frame: Bytes)
    requires |frame| < 0x1_0000_0000
    ensures var w := WriteFrame(frame);
      && |w| == 4 + |frame| && w[4..] == frame
      && w[0] as nat * 0x100_0000 + w[1] as nat * 0x1_0000 + w[2] as nat * 0x100 + w[3] as nat == |frame|
  {
    PrefixInverts(|frame|, frame);
  }

  /** Reading gives back exactly the frame written, whatever follows it, if and only if
      its length fits the prefix. */
  lemma ReadInvertsWrite(frame: Bytes, rest: Bytes)
    ensures TryRead(WriteFrame(frame) + rest) == (Some(frame), rest) <==> |frame| < 0x1_0000_0000
  {
    var buffer := WriteFrame(frame) + rest;
    PrefixInverts(|frame|, frame + rest);
    assert buffer == Prefix(|frame|) + (frame + rest);
    if |frame| < PREFIX_RANGE {
      assert buffer[PREFIX_BYTES..PREFIX_BYTES + |frame|] == frame;
      assert buffer[PREFIX_BYTES + |frame|..] == rest;
    }
  }

  /** Everything that can be read off a buffer by repeated reading. */
  function ReadAll(buffer: Bytes): (seq<Bytes>, Bytes)
    decreases |buffer|
  {
    var (frame, rest) := TryRead(buffer);
    if frame.None? then ([], buffer)
    else
      var (frames, residue) := ReadAll(rest);
      ([frame.value] + frames, residue)
  }

  /** Reading as bytes arrive, in any chunks. */
  function ReadChunks(buffer: Bytes, chunks: seq<Bytes>): (seq<Bytes>, Bytes)
    decreases |chunks|
  {
    if chunks == [] then ([], buffer)
    else
      var (frames, residue) := ReadAll(buffer + chunks[0]);
      var (more, last) := ReadChunks(residue, chunks[1..]);
      (frames + more, last)
  }

  function WriteAll(frames: seq<Bytes>): Bytes {
    if frames == [] then [] else WriteFrame(frames[0]) + WriteAll(frames[1..])
  }

  /** A frame that is complete stays the first one when more bytes arrive. */
  lemma TryReadStable(buffer: Bytes, more: Bytes)
    requires TryRead(buffer).0.Some?
    ensures TryRead(buffer + more) == (TryRead(buffer).0, TryRead(buffer).1 + more)
  {
    var whole := buffer + more;
    var end := PREFIX_BYTES + Uint32(buffer);
    assert Uint32(whole) == Uint32(buffer);
    assert whole[PREFIX_BYTES..end] == buffer[PREFIX_BYTES..end];
    assert whole[end..] == buffer[end..] + more;
  }

  lemma {:induction false} ReadAllThenMore(buffer: Bytes, more: Bytes)
    ensures var (frames, residue) := ReadAll(buffer); var (later, last) := ReadAll(residue + more);
      ReadAll(buffer + more) == (frames + later, last)
    decreases |buffer|
  {
    var (frame, rest) := TryRead(buffer);
    if frame.Some? {
      TryReadStable(buffer, more);
      ReadAllThenMore(rest, more);
      var (frames, residue) := ReadAll(rest);
      var (later, last) := ReadAll(residue + more);
      assert [frame.value] + (frames + later) == [frame.value] + frames + later;
    } else {
      assert [] + ReadAll(buffer + more).0 == ReadAll(buffer + more).0;
    }
  }

  /** A buffer from which nothing more can be read. */
  predicate Exhausted(buffer: Bytes) {
    TryRead(buffer).0.None?
  }

  lemma {:induction false} ReadAllExhausts(buffer: Bytes)
    ensures Exhausted(ReadAll(buffer).1)
    decreases |buffer|
  {
    var (frame, rest) := TryRead(buffer);
    if frame.Some? { ReadAllExhausts(rest); }
  }

  lemma ReadMore(buffer: Bytes, chunk: Bytes, later: Bytes)
    ensures var (frames, residue) := ReadAll(buffer + chunk); var (more, last) := ReadAll(residue + later);
      Exhausted(residue) && ReadAll(buffer + (chunk + later)) == (frames + more, last)
  {
    ReadAllExhausts(buffer + chunk);
    ReadAllThenMore(buffer + chunk, later);
    assert buffer + chunk + later == buffer + (chunk + later);
  }

  /** Chunking invariance for transfer frames. */
  lemma {:induction false} ChunksReadAlike(buffer: Bytes, chunks: seq<Bytes>)
    requires Exhausted(buffer)
    ensures ReadChunks(buffer, chunks) == ReadAll(buffer + Concat(chunks))
    decreases |chunks|
  {
    if chunks == [] {
      assert buffer + [] == buffer;
    } else {
      ReadMore(buffer, chunks[0], Concat(chunks[1..]));
      ChunksReadAlike(ReadAll(buffer + chunks[0]).1, chunks[1..]);
    }
  }

  lemma ReadAllStep(frame: Bytes, rest: Bytes)
    requires |frame| < PREFIX_RANGE
    ensures ReadAll(WriteFrame(frame) + rest) == ([frame] + ReadAll(rest).0, ReadAll(rest).1)
  {
    ReadInvertsWrite(frame, rest);
  }

  lemma {:induction false} ReadAllInvertsWriteAll(frames: seq<Bytes>)
    requires forall f <- frames :: |f| < PREFIX_RANGE
    ensures ReadAll(WriteAll(frames)) == (frames, [])
  {
    if frames != [] {
      ReadAllStep(frames[0], WriteAll(frames[1..]));
      ReadAllInvertsWriteAll(frames[1..]);
      assert [frames[0]] + frames[1..] == frames;
    }
  }

  /** The frames written come out again, in order and with nothing left over, however the
      network split their bytes. */
  lemma TransferRoundTrip(frames: seq<Bytes>, chunks: seq<Bytes>)
    requires forall f <- frames :: |f| < PREFIX_RANGE
    requires Concat(chunks) == WriteAll(frames)
    ensures ReadChunks([], chunks) == (frames, [])
  {
    ChunksReadAlike([], chunks);
    ReadAllInvertsWriteAll(frames);
    assert [] + Concat(chunks) == Concat(chunks);
  }

  /** The buffer the source refills in place. */
  class FrameBuffer {
    var bytes: Bytes

    constructor ()
      ensures bytes == []
    {
      bytes := [];
    }

    method Add(data: Bytes)
      modifies this
      ensures bytes == old(bytes) + data
    {
      bytes := bytes + data;
    }

    method TryReadFrame() returns (frame: Option<Bytes>)
      modifies this
      ensures (frame, bytes) == TryRead(old(bytes))
    {
      if |bytes| < PREFIX_BYTES { return None; }
      var length := Uint32(bytes[..PREFIX_BYTES]);
      if |bytes| < PREFIX_BYTES + length { return None; }
      frame := Some(bytes[PREFIX_BYTES..PREFIX_BYTES + length]);
      bytes := bytes[PREFIX_BYTES + length..];
    }
  }
}
