/** The byte form of a frame: one kind byte, a four-byte big-endian length, the payload. */
module FrameCodec {
  import opened Wrappers

  const CONTROL_FRAME: byte := 1
  const DATA_FRAME: byte := 2
  const FRAME_HEADER_SIZE: nat := 5
  const MAX_CONTROL_FRAME_SIZE: nat := 512 * 1024
  const MAX_DATA_FRAME_SIZE: nat := 128 * 1024

  // ----- big-endian numbers ---------------------------------------------

  function Pow256(n: nat): (p: nat)
    ensures p > 0
  {
    if n == 0 then 1 else 256 * Pow256(n - 1)
  }

  function BigEndian(width: nat, v: nat): (b: seq<byte>)
    requires v < Pow256(width)
    ensures |b| == width
  {
    if width == 0 then [] else BigEndian(width - 1, v / 256) + [v % 256]
  }

  function FromBigEndian(b: seq<byte>): (v: nat)
    ensures v < Pow256(|b|)
  {
    if b == [] then 0 else FromBigEndian(b[..|b| - 1]) * 256 + b[|b| - 1]
  }

  lemma {:induction false} BigEndianRoundTrip(width: nat, v: nat)
    requires v < Pow256(width)
    ensures FromBigEndian(BigEndian(width, v)) == v
  {
    if width > 0 {
      BigEndianRoundTrip(width - 1, v / 256);
      assert BigEndian(width, v)[..width - 1] == BigEndian(width - 1, v / 256);
    }
  }

  lemma {:induction false} FromBigEndianRoundTrip(b: seq<byte>)
    ensures BigEndian(|b|, FromBigEndian(b)) == b
  {
    if b != [] {
      FromBigEndianRoundTrip(b[..|b| - 1]);
      assert b == b[..|b| - 1] + [b[|b| - 1]];
    }
  }

  lemma Widths()
    ensures Pow256(4) == 0x1_0000_0000 && Pow256(8) == 0x1_0000_0000_0000_0000
  {
    assert Pow256(2) == 0x1_0000 && Pow256(4) == 0x1_0000_0000;
    assert Pow256(6) == 0x1_0000_0000_0000;
  }

  // ----- frames ----------------------------------------------------------

  datatype FrameError = UnknownKind | TooLong | EmptyData | TruncatedHeader | TruncatedPayload

  /** A frame before its payload is parsed. */
  datatype Raw = Raw(kind: byte, payload: seq<byte>)

  function FrameLimit(kind: byte): Option<nat>
  {
    if kind == CONTROL_FRAME then Some(MAX_CONTROL_FRAME_SIZE)
    else if kind == DATA_FRAME then Some(MAX_DATA_FRAME_SIZE) else None
  }

  /** `validate_frame_length`. */
  function LengthError(kind: byte, length: nat): Option<FrameError>
  {
    match FrameLimit(kind)
    case None => Some(UnknownKind)
    case Some(maximum) =>
      if length > maximum then Some(TooLong)
      else if kind == DATA_FRAME && length == 0 then Some(EmptyData) else None
  }

  /** The frames the protocol has. */
  predicate ValidRaw(f: Raw)
  {
    || (f.kind == CONTROL_FRAME && |f.payload| <= MAX_CONTROL_FRAME_SIZE)
    || (f.kind == DATA_FRAME && 1 <= |f.payload| <= MAX_DATA_FRAME_SIZE)
  }

  lemma ValidMeansNoError(f: Raw)
    ensures ValidRaw(f) <==> LengthError(f.kind, |f.payload|).None?
    ensures ValidRaw(f) ==> |f.payload| < Pow256(4)
  {
    Widths();
  }

  /** The bytes of a frame. */
  function Encoded(f: Raw): (b: seq<byte>)
    requires ValidRaw(f)
    ensures |b| == FRAME_HEADER_SIZE + |f.payload|
  {
    ValidMeansNoError(f);
    [f.kind] + BigEndian(4, |f.payload|) + f.payload
  }

  /** `encode_frame`. */
  method EncodeFrame(kind: byte, payload: seq<byte>) returns (r: Result<seq<byte>, FrameError>)
    ensures r.Ok? <==> ValidRaw(Raw(kind, payload))
    ensures r.Ok? ==> r.value == Encoded(Raw(kind, payload))
    ensures r.Err? ==> LengthError(kind, |payload|) == Some(r.error)
  {
    ValidMeansNoError(Raw(kind, payload));
    var error := LengthError(kind, |payload|);
    if error.Some? {
      return Err(error.value);
    }
    var frame := [kind];
    frame := frame + BigEndian(4, |payload|);
    frame := frame + payload;
    r := Ok(frame);
  }

  /** `decode_frame`, up to the parsing of a control payload: the frame and the bytes it took. */
  function DecodeFrame(input: seq<byte>): Result<(Raw, nat), FrameError>
  {
    if |input| < FRAME_HEADER_SIZE then Err(TruncatedHeader)
    else
      var kind, length := input[0], FromBigEndian(input[1..5]);
      match LengthError(kind, length)
      case Some(e) => Err(e)
      case None =>
        var end := FRAME_HEADER_SIZE + length;
        if |input| < end then Err(TruncatedPayload) else Ok((Raw(kind, input[FRAME_HEADER_SIZE..end]), end))
  }

  /** A frame is read back exactly, whatever follows it. */
  lemma DecodeEncoded(f: Raw, rest: seq<byte>)
    requires ValidRaw(f)
    ensures DecodeFrame(Encoded(f) + rest) == Ok((f, |Encoded(f)|))
  {
    var input := Encoded(f) + rest;
    ValidMeansNoError(f);
    assert input[1..5] == BigEndian(4, |f.payload|);
    BigEndianRoundTrip(4, |f.payload|);
    assert input[FRAME_HEADER_SIZE..FRAME_HEADER_SIZE + |f.payload|] == f.payload;
  }

  /** The decoder accepts nothing else: what it takes is the encoding of what it returns. */
  lemma DecodedWasEncoded(input: seq<byte>)
    requires DecodeFrame(input).Ok?
    ensures var (f, n) := DecodeFrame(input).value;
            ValidRaw(f) && n <= |input| && input[..n] == Encoded(f)
  {
    var (f, n) := DecodeFrame(input).value;
    ValidMeansNoError(f);
    FromBigEndianRoundTrip(input[1..5]);
    assert input[..n] == [input[0]] + input[1..5] + input[5..n];
  }
}
