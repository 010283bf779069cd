/** The fixed-size frame codec (backend/internal/ws/padding.go and its twin
    client/lib/core/network/padding.dart).  Random filling is a parameter. */
module Padding {
  import opened Wrappers

  newtype byte = x: int | 0 <= x < 256

  type Bytes = seq<byte>

  const FRAME_SIZE := 2048
  const HEADER_BYTES := 3
  const MAX_PAYLOAD := FRAME_SIZE - HEADER_BYTES

  /** One frame's worth of random bytes. */
  type Noise = s: Bytes | |s| == FRAME_SIZE witness seq(FRAME_SIZE, _ => 0)

  /** What a real frame carries. */
  datatype Piece = Piece(payload: Bytes, hasMore: bool)

  // ---- Frames ----

  function Flags(hasMore: bool): byte { if hasMore then 3 else 1 }

  function Frame(p: Piece, noise: Noise): Bytes
    requires |p.payload| <= MAX_PAYLOAD
  {
    [Flags(p.hasMore), (|p.payload| / 256) as byte, (|p.payload| % 256) as byte] + p.payload
        + noise[HEADER_BYTES + |p.payload|..]
  }

  function Dummy(noise: Noise): Bytes {
    [0] + noise[1..]
  }

  function LengthField(frame: Bytes): nat
    requires |frame| == FRAME_SIZE
  {
    frame[1] as nat * 256 + frame[2] as nat
  }

  predicate IsReal(frame: Bytes)
    requires |frame| == FRAME_SIZE
  {
    frame[0] % 2 == 1
  }

  predicate HasMore(frame: Bytes)
    requires |frame| == FRAME_SIZE
  {
    frame[0] / 2 % 2 == 1
  }

  /** The client's decoder: nothing for wrong sizes, dummies and corrupt lengths. */
  function Decode(frame: Bytes): Option<Piece> {
    if |frame| != FRAME_SIZE then None
    else if !IsReal(frame) then None
    else if LengthField(frame) > MAX_PAYLOAD then None
    else Some(Piece(frame[HEADER_BYTES..HEADER_BYTES + LengthField(frame)], HasMore(frame)))
  }

  datatype FrameError = UnexpectedSize | CorruptLength

  /** The server's decoder: checks the length of dummies, too. */
  function DecodeFrame(frame: Bytes): Result<(Piece, bool), FrameError> {
    if |frame| != FRAME_SIZE then Err(UnexpectedSize)
    else if LengthField(frame) > MAX_PAYLOAD then Err(CorruptLength)
    else Ok((Piece(frame[HEADER_BYTES..HEADER_BYTES + LengthField(frame)], HasMore(frame)), IsReal(frame)))
  }

  /** What the server's read loop makes of a decoded frame. */
  function Accepted(r: Result<(Piece, bool), FrameError>): Option<Piece> {
    if r.Err? || !r.value.1 then None else Some(r.value.0)
  }

  /** Both decoders take the same pieces out of every byte string. */
  lemma DecodersAgree(frame: Bytes)
    ensures Accepted(DecodeFrame(frame)) == Decode(frame)
  {
  }

  lemma DecodeInverts(p: Piece, noise: Noise)
    requires |p.payload| <= MAX_PAYLOAD
    ensures |Frame(p, noise)| == FRAME_SIZE
    ensures Decode(Frame(p, noise)) == Some(p)
  {
    var f := Frame(p, noise);
    assert LengthField(f) == |p.payload|;
    assert f[HEADER_BYTES..HEADER_BYTES + |p.payload|] == p.payload;
  }

  /** The layout, byte by byte: flags, a big-endian length, the payload, and filling. */
  lemma FrameLayout(p: Piece, noise: Noise)
    requires |p.payload| <= 2045
    ensures var f, end := Frame(p, noise), 3 + |p.payload|;
      && |f| == 2048 && f[0] == (if p.hasMore then 3 else 1)
      && f[1] as nat * 256 + f[2] as nat == |p.payload|
      && f[3..end] == p.payload && f[end..] == noise[end..]
  {
    DecodeInverts(p, noise);
  }

  /** What the decoder takes, byte by byte: 2048 bytes with the lowest flag bit set and a length
      that fits; the second bit says whether there is more. */
  lemma DecodeLayout(f: Bytes)
    ensures Decode(f).Some? <==> |f| == 2048 && f[0] % 2 == 1 && f[1] as nat * 256 + f[2] as nat <= 2045
    ensures Decode(f).Some? ==> var end := 3 + f[1] as nat * 256 + f[2] as nat;
      Decode(f).value.payload == f[3..end] && (Decode(f).value.hasMore <==> f[0] / 2 % 2 == 1)
  {
  }

  lemma DummyIsDropped(noise: Noise)
    ensures |Dummy(noise)| == FRAME_SIZE && Decode(Dummy(noise)) == None
  {
  }

  /** A frame that decodes was built by the encoder, up to unused flag bits and filling. */
  lemma EncodeInverts(frame: Bytes)
    requires |frame| == FRAME_SIZE && Decode(frame).Some?
    ensures Frame(Decode(frame).value, frame)[1..] == frame[1..]
    ensures frame[0] < 4 ==> Frame(Decode(frame).value, frame) == frame
  {
    var p := Decode(frame).value;
    var f := Frame(p, frame);
    assert f == [f[0], f[1], f[2]] + p.payload + frame[HEADER_BYTES + |p.payload|..];
    var end := HEADER_BYTES + |p.payload|;
    assert frame == [frame[0], frame[1], frame[2]] + frame[HEADER_BYTES..end] + frame[end..];
  }

  // ---- Fragmentation ----

  /** The pieces a message travels in. */
  function Pieces(message: Bytes): seq<Piece> {
    if message == [] then []
    else if |message| <= MAX_PAYLOAD then [Piece(message, false)]
    else [Piece(message[..MAX_PAYLOAD], true)] + Pieces(message[MAX_PAYLOAD..])
  }

  /** The slice that starts at `offset`. */
  function PieceOf(message: Bytes, offset: nat): Piece
    requires offset < |message|
  {
    var end := if offset + MAX_PAYLOAD > |message| then |message| else offset + MAX_PAYLOAD;
    Piece(message[offset..end], end < |message|)
  }

  lemma PieceAt(message: Bytes, offset: nat)
    requires offset < |message|
    ensures var next := offset + MAX_PAYLOAD;
      Pieces(message[offset..]) == [PieceOf(message, offset)] + if next < |message| then Pieces(message[next..]) else []
  {
    var rest := message[offset..];
    if offset + MAX_PAYLOAD < |message| {
      assert rest[..MAX_PAYLOAD] == message[offset..offset + MAX_PAYLOAD];
      assert rest[MAX_PAYLOAD..] == message[offset + MAX_PAYLOAD..];
    } else {
      assert rest == message[offset..|message|];
    }
  }

  function FramesNeeded(length: nat): nat {
    (length + MAX_PAYLOAD - 1) / MAX_PAYLOAD
  }

  lemma {:induction false} PiecesCount(message: Bytes)
    ensures |Pieces(message)| == FramesNeeded(|message|) == (|message| + 2044) / 2045
  {
    if |message| > MAX_PAYLOAD {
      PiecesCount(message[MAX_PAYLOAD..]);
      assert FramesNeeded(|message|) == 1 + FramesNeeded(|message| - MAX_PAYLOAD);
    }
  }

  function Concat(chunks: seq<Bytes>): Bytes {
    if chunks == [] then [] else chunks[0] + Concat(chunks[1..])
  }

  // ---- Reassembly ----

  /** The receiving half of a connection: the message under way and those completed. */
  datatype Reader = Reader(assembly: Bytes, inbox: seq<Bytes>)

  function Accept(r: Reader, p: Option<Piece>): Reader {
    if p.None? then r
    else if p.value.hasMore then r.(assembly := r.assembly + p.value.payload)
    else Reader([], r.inbox + [r.assembly + p.value.payload])
  }

  function AcceptAll(r: Reader, ps: seq<Option<Piece>>): Reader
    decreases |ps|
  {
    if ps == [] then r else AcceptAll(Accept(r, ps[0]), ps[1..])
  }

  // ---- The encoders ----

  method EncodeFrame(payload: Bytes, hasMore: bool, noise: Noise) returns (r: Option<array<byte>>)
    ensures r.None? <==> |payload| > 2045
    ensures r.Some? ==> fresh(r.value) && r.value[..] == Frame(Piece(payload, hasMore), noise)
  {
    if |payload| > MAX_PAYLOAD { return None; }
    var frame := new byte[FRAME_SIZE](i requires 0 <= i < FRAME_SIZE => noise[i]);
    var flags: byte := 1;
    if hasMore { flags := flags + 2; }
    frame[0] := flags;
    frame[1] := (|payload| / 256) as byte;
    frame[2] := (|payload| % 256) as byte;
    forall i | 0 <= i < |payload| {
      frame[HEADER_BYTES + i] := payload[i];
    }
    assert frame[..] == Frame(Piece(payload, hasMore), noise);
    return Some(frame);
  }

  method DummyFrame(noise: Noise) returns (frame: array<byte>)
    ensures fresh(frame) && frame[..] == Dummy(noise)
    ensures frame.Length == 2048 && Decode(frame[..]) == None
    ensures frame[0] == 0 && frame[1..] == noise[1..]
  {
    frame := new byte[FRAME_SIZE](i requires 0 <= i < FRAME_SIZE => noise[i]);
    frame[0] := 0;
    DummyIsDropped(noise);
  }

  /** Frames of the right size that decode to the given pieces. */
  ghost predicate Carry(frames: seq<Bytes>, pieces: seq<Piece>) {
    |frames| == |pieces| && forall i :: 0 <= i < |frames| ==>
        |frames[i]| == FRAME_SIZE && Decode(frames[i]) == Some(pieces[i])
  }

  method EncodeSlice(message: Bytes, offset: nat, noise: Noise) returns (frame: Bytes)
    requires offset < |message|
    ensures |frame| == FRAME_SIZE && Decode(frame) == Some(PieceOf(message, offset))
  {
    var end := if offset + MAX_PAYLOAD > |message| then |message| else offset + MAX_PAYLOAD;
    var f := EncodeFrame(message[offset..end], end < |message|, noise);
    DecodeInverts(PieceOf(message, offset), noise);
    return f.value[..];
  }

  /** The frames of a message, in order; an empty message is one empty real frame. */
  method SplitIntoFrames(message: Bytes, noise: nat -> Noise) returns (frames: seq<Bytes>)
    ensures Carry(frames, if message == [] then [Piece([], false)] else Pieces(message))
  {
    if message == [] {
      var f := EncodeFrame([], false, noise(0));
      DecodeInverts(Piece([], false), noise(0));
      return [f.value[..]];
    }
    frames := [];
    ghost var pieces: seq<Piece> := [];
    var offset := 0;
    assert message[0..] == message;
    while offset < |message|
      invariant 0 <= offset
      invariant Carry(frames, pieces)
      invariant Pieces(message) == pieces + PiecesFrom(message, offset)
    {
      var frame := EncodeSlice(message, offset, noise(|frames|));
      ghost var piece := PieceOf(message, offset);
      NextPiece(message, offset, pieces);
      CarryOne(frames, pieces, frame, piece);
      frames := frames + [frame];
      pieces := pieces + [piece];
      offset := offset + MAX_PAYLOAD;
    }
    assert pieces + [] == pieces;
  }

  function PiecesFrom(message: Bytes, offset: nat): seq<Piece> {
    if offset < |message| then Pieces(message[offset..]) else []
  }

  lemma NextPiece(message: Bytes, offset: nat, pieces: seq<Piece>)
    requires offset < |message|
    ensures pieces + PiecesFrom(message, offset) == pieces + [PieceOf(message, offset)]
        + PiecesFrom(message, offset + MAX_PAYLOAD)
  {
    PieceAt(message, offset);
  }

  lemma CarryOne(frames: seq<Bytes>, pieces: seq<Piece>, frame: Bytes, piece: Piece)
    requires Carry(frames, pieces) && |frame| == FRAME_SIZE && Decode(frame) == Some(piece)
    ensures Carry(frames + [frame], pieces + [piece])
  {
  }
}
