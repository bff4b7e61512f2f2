/**
 The fragment layer: a frame is split into numbered fragments, one per encrypted record, and
 put together again on the other side. Encryption is the identity on records here: records
 arrive as written, in order, or not at all.
 */
module SecureChannel {
  import opened Wrappers
  import opened FrameCodec

  const MAX_SECURE_RECORD_SIZE: nat := 65_535
  const NOISE_TAG_SIZE: nat := 16
  const MAX_SECURE_FRAME_SIZE: nat := MAX_CONTROL_FRAME_SIZE + 5
  const FRAGMENT_HEADER_SIZE: nat := 18
  const MAX_FRAGMENT_PAYLOAD: nat := MAX_SECURE_RECORD_SIZE - NOISE_TAG_SIZE - FRAGMENT_HEADER_SIZE
  const FRAGMENT_VERSION: byte := 1
  const FIRST_FRAGMENT: byte := 1
  const LAST_FRAGMENT: byte := 2
  const COUNTER_LIMIT: nat := 0x1_0000_0000_0000_0000

  type counter = x: int | 0 <= x < 0x1_0000_0000_0000_0000

  type Record = seq<byte>

  datatype SecureError =
    | Io | BadFrame(error: FrameError) | CounterExhausted
    | TruncatedFragment | InvalidHeader | FrameTooLong | InvalidPayload | OutOfOrder | BadTermination
    | TrailingBytes

  // ----- one fragment ----------------------------------------------------

  datatype Fragment = Fragment(first: bool, last: bool, id: counter, total: nat, offset: nat, body: seq<byte>)

  function Flags(first: bool, last: bool): byte
  {
    (if first then FIRST_FRAGMENT else 0) + (if last then LAST_FRAGMENT else 0)
  }

  predicate Fits(f: Fragment) { f.total < 0x1_0000_0000 && f.offset < 0x1_0000_0000 }

  function FragmentBytes(f: Fragment): (r: Record)
    requires Fits(f)
    ensures |r| == FRAGMENT_HEADER_SIZE + |f.body|
  {
    Widths();
    [FRAGMENT_VERSION, Flags(f.first, f.last)] + BigEndian(8, f.id) + BigEndian(4, f.total) + BigEndian(4, f.offset)
    + f.body
  }

  /** What the reader tests of a record by itself. */
  function ParseFragment(r: Record): (f: Result<Fragment, SecureError>)
  {
    Widths();
    if |r| < FRAGMENT_HEADER_SIZE then Err(TruncatedFragment)
    else if r[0] != FRAGMENT_VERSION || r[1] >= 4 then Err(InvalidHeader)
    else
      var f := Fragment(r[1] % 2 == 1, r[1] >= 2, FromBigEndian(r[2..10]), FromBigEndian(r[10..14]),
                        FromBigEndian(r[14..18]), r[FRAGMENT_HEADER_SIZE..]);
      if f.total == 0 || f.total > MAX_SECURE_FRAME_SIZE then Err(FrameTooLong)
      else if f.body == [] || |f.body| > MAX_FRAGMENT_PAYLOAD then Err(InvalidPayload)
      else Ok(f)
  }

  /** Which test refuses a record: its length, its version and flags, the total it claims, its payload. */
  lemma RefusalReasons(r: Record)
    ensures ParseFragment(r) == Err(TruncatedFragment) <==> |r| < 18
    ensures ParseFragment(r) == Err(InvalidHeader) <==> |r| >= 18 && !(r[0] == 1 && r[1] <= 3)
    ensures |r| >= 18 && r[0] == 1 && r[1] <= 3 ==>
              var total := FromBigEndian(r[10..14]);
              && (ParseFragment(r) == Err(FrameTooLong) <==> !(1 <= total <= MAX_SECURE_FRAME_SIZE))
              && (ParseFragment(r) == Err(InvalidPayload) <==>
                    1 <= total <= MAX_SECURE_FRAME_SIZE && !(19 <= |r| <= 18 + MAX_FRAGMENT_PAYLOAD))
  {
    hide FromBigEndian;
    Widths();
  }

  predicate ValidFragment(f: Fragment)
  {
    && Fits(f) && 1 <= f.total <= MAX_SECURE_FRAME_SIZE && 1 <= |f.body| <= MAX_FRAGMENT_PAYLOAD
  }

  lemma ParseFragmentBytes(f: Fragment)
    requires ValidFragment(f)
    ensures ParseFragment(FragmentBytes(f)) == Ok(f)
  {
    Widths();
    var r := FragmentBytes(f);
    assert r[2..10] == BigEndian(8, f.id);
    assert r[10..14] == BigEndian(4, f.total);
    assert r[14..18] == BigEndian(4, f.offset);
    assert r[FRAGMENT_HEADER_SIZE..] == f.body;
    BigEndianRoundTrip(8, f.id);
    BigEndianRoundTrip(4, f.total);
    BigEndianRoundTrip(4, f.offset);
  }

  lemma FragmentBytesParse(r: Record)
    requires ParseFragment(r).Ok?
    ensures ValidFragment(ParseFragment(r).value) && FragmentBytes(ParseFragment(r).value) == r
  {
    Widths();
    FromBigEndianRoundTrip(r[2..10]);
    FromBigEndianRoundTrip(r[10..14]);
    FromBigEndianRoundTrip(r[14..18]);
    assert r == [r[0], r[1]] + r[2..10] + r[10..14] + r[14..18] + r[FRAGMENT_HEADER_SIZE..];
  }

  // ----- a message as a chain of fragments ------------------------------

  /**
   The records carry `body` as the part of a message of `total` bytes from `offset` to its end:
   contiguous, under one identifier, with LAST exactly on the final one. FIRST is demanded of the
   fragment at offset 0 only; elsewhere it may be set or not.
   */
  ghost predicate Carries(records: seq<Record>, id: counter, total: nat, offset: nat, body: seq<byte>)
    decreases |records|
  {
    records != [] &&
    var parsed := ParseFragment(records[0]);
    parsed.Ok? &&
    var f := parsed.value;
    && f.id == id && f.total == total && f.offset == offset
    && (offset == 0 ==> f.first)
    && offset + |f.body| <= total
    && (f.last <==> offset + |f.body| == total)
    && f.body <= body
    && (if f.last then records == [records[0]] && f.body == body
        else Carries(records[1..], id, total, offset + |f.body|, body[|f.body|..]))
  }

  /** Contiguity accounts for every byte: the parts add up to the rest of the message. */
  lemma {:induction false} CarriedLength(records: seq<Record>, id: counter, total: nat, offset: nat, body: seq<byte>)
    requires Carries(records, id, total, offset, body)
    ensures offset + |body| == total && |records| <= |body|
    decreases |records|
  {
    var f := ParseFragment(records[0]).value;
    if !f.last {
      CarriedLength(records[1..], id, total, offset + |f.body|, body[|f.body|..]);
    }
  }

  /** A carried message is the bodies of its records, one after the other. */
  function Bodies(records: seq<Record>): seq<byte>
  {
    if records == [] then []
    else (if ParseFragment(records[0]).Ok? then ParseFragment(records[0]).value.body else []) + Bodies(records[1..])
  }

  lemma {:induction false} CarriedBodies(records: seq<Record>, id: counter, total: nat, offset: nat, body: seq<byte>)
    requires Carries(records, id, total, offset, body)
    ensures Bodies(records) == body
    decreases |records|
  {
    var f := ParseFragment(records[0]).value;
    if f.last {
      assert Bodies(records[1..]) == [];
    } else {
      CarriedBodies(records[1..], id, total, offset + |f.body|, body[|f.body|..]);
    }
  }

  // ----- writing ---------------------------------------------------------

  /** The fragment of `message` that starts at `offset`. */
  function FragmentAt(id: counter, message: seq<byte>, offset: nat): Fragment
    requires offset < |message|
  {
    var end := offset + Min(|message| - offset, MAX_FRAGMENT_PAYLOAD);
    Fragment(offset == 0, end == |message|, id, |message|, offset, message[offset..end])
  }

  /** The records of `message` from `offset` on. */
  function Split(id: counter, message: seq<byte>, offset: nat): (r: seq<Record>)
    requires offset <= |message| < 0x1_0000_0000
    decreases |message| - offset
  {
    if offset == |message| then []
    else
      var f := FragmentAt(id, message, offset);
      [FragmentBytes(f)] + Split(id, message, offset + |f.body|)
  }

  lemma {:induction false} SplitCarries(id: counter, message: seq<byte>, offset: nat)
    requires offset < |message| <= MAX_SECURE_FRAME_SIZE
    ensures Carries(Split(id, message, offset), id, |message|, offset, message[offset..])
    decreases |message| - offset
  {
    hide FragmentBytes, ParseFragment;
    var f := FragmentAt(id, message, offset);
    var records := Split(id, message, offset);
    var end := offset + |f.body|;
    ParseFragmentBytes(f);
    assert records[0] == FragmentBytes(f) && records[1..] == Split(id, message, end);
    assert message[offset..][|f.body|..] == message[end..];
    if end < |message| {
      SplitCarries(id, message, end);
    }
  }

  /** A slice of two sequences in a row is a slice of each. */
  lemma SliceOfBoth(a: seq<byte>, b: seq<byte>, from: nat, to: nat)
    requires from < to <= |a| + |b|
    ensures (a + b)[from..to] ==
            (if from < |a| then a[from..Min(to, |a|)] else [])
            + (if to > |a| then b[if from < |a| then 0 else from - |a|..to - |a|] else [])
  {
  }

  class SecureWriter {
    var nextMessage: counter
    var fragment: seq<byte>
    var written: seq<Record>

    constructor ()
      ensures nextMessage == 0 && written == []
    {
      nextMessage, fragment, written := 0, [], [];
    }

    /** `write_frame`: a failing connection may cut the message off after any fragment. */
    method WriteFrame(kind: byte, payload: seq<byte>) returns (r: Option<SecureError>)
      modifies this
      ensures r == Some(CounterExhausted) <==>
                ValidRaw(Raw(kind, payload)) && old(nextMessage) + 1 == COUNTER_LIMIT
      ensures !ValidRaw(Raw(kind, payload)) ==> r.Some? && r.value.BadFrame?
      ensures r.Some? && r.value != Io ==> nextMessage == old(nextMessage) && written == old(written)
      ensures r == Some(Io) ==> ValidRaw(Raw(kind, payload)) && nextMessage == old(nextMessage) + 1
      ensures r == Some(Io) ==>
                && old(written) <= written
                && written <= old(written) + Split(old(nextMessage), Encoded(Raw(kind, payload)), 0)
      ensures r.None? ==>
                && ValidRaw(Raw(kind, payload)) && nextMessage == old(nextMessage) + 1
                && written == old(written) + Split(old(nextMessage), Encoded(Raw(kind, payload)), 0)
    {
      hide FragmentBytes, BigEndian, LengthError, Flags;
      ValidMeansNoError(Raw(kind, payload));
      var error := LengthError(kind, |payload|);
      if error.Some? {
        return Some(BadFrame(error.value));
      }
      ghost var message := Encoded(Raw(kind, payload));
      var header := [kind] + BigEndian(4, |payload|);
      var total := |header| + |payload|;
      if total > MAX_SECURE_FRAME_SIZE {
        assert false;
      }
      var id := nextMessage;
      if nextMessage + 1 >= COUNTER_LIMIT {
        return Some(CounterExhausted);
      }
      nextMessage := nextMessage + 1;
      var offset := 0;
      while offset < total
        invariant offset <= total && nextMessage == id + 1
        invariant old(written) <= written
        invariant written + Split(id, message, offset) == old(written) + Split(id, message, 0)
      {
        var count := Min(total - offset, MAX_FRAGMENT_PAYLOAD);
        BuildFragment(id, header, payload, offset, count, message);
        assert Split(id, message, offset) == [fragment] + Split(id, message, offset + count);
        var failed: bool := *;
        if failed {
          return Some(Io);
        }
        written := written + [fragment];
        offset := offset + count;
      }
      r := None;
    }

    /** One fragment in the reused buffer: its header, its part of the frame header, its part of the payload. */
    method BuildFragment(
      id: counter, header: seq<byte>, payload: seq<byte>, offset: nat, count: nat, ghost message: seq<byte>)
      requires message == header + payload && |header| == FRAME_HEADER_SIZE && offset < |message| < 0x1_0000_0000
      requires count == Min(|message| - offset, MAX_FRAGMENT_PAYLOAD)
      modifies this`fragment
      ensures fragment == FragmentBytes(FragmentAt(id, message, offset))
    {
      hide BigEndian, Pow256;
      Widths();
      var total, end := |header| + |payload|, offset + count;
      fragment := [];
      fragment := fragment + [FRAGMENT_VERSION];
      fragment := fragment + [Flags(offset == 0, end == total)];
      fragment := fragment + BigEndian(8, id);
      fragment := fragment + BigEndian(4, total);
      fragment := fragment + BigEndian(4, offset);
      ghost var head := fragment;
      SliceOfBoth(header, payload, offset, end);
      if offset < |header| {
        fragment := fragment + header[offset..Min(end, |header|)];
      }
      if end > |header| {
        var from := if offset < |header| then 0 else offset - |header|;
        var to := Min(end - |header|, |payload|);
        if from < to {
          fragment := fragment + payload[from..to];
        }
      }
      assert fragment == head + message[offset..end];
      assert head == [FRAGMENT_VERSION, Flags(offset == 0, end == total)] + BigEndian(8, id) + BigEndian(4, total)
                     + BigEndian(4, offset);
    }
  }

  // ----- reading ---------------------------------------------------------

  /** The reader's tests of one more fragment, given the total of the message under way. */
  function FragmentError(f: Fragment, id: counter, total: Option<nat>, offset: nat): Option<SecureError>
  {
    if total.None? && (f.id != id || f.offset != 0 || !f.first) then Some(OutOfOrder)
    else if f.id != id || (total.Some? && f.total != total.value) || f.offset != offset || offset + |f.body| > f.total
    then Some(OutOfOrder)
    else if f.last != (offset + |f.body| == f.total) then Some(BadTermination)
    else None
  }

  /** The rest of a message and the number of records it takes. */
  function Reassembled(stream: seq<Record>, id: counter, total: Option<nat>, offset: nat)
    : Result<(seq<byte>, nat), SecureError>
  {
    if stream == [] then Err(Io)
    else
      match ParseFragment(stream[0])
      case Err(e) => Err(e)
      case Ok(f) =>
        var error := FragmentError(f, id, total, offset);
        if error.Some? then Err(error.value)
        else if f.last then Ok((f.body, 1))
        else Extended(f.body, Reassembled(stream[1..], id, Some(f.total), offset + |f.body|))
  }

  function Extended(body: seq<byte>, rest: Result<(seq<byte>, nat), SecureError>): Result<(seq<byte>, nat), SecureError>
  {
    match rest
    case Err(e) => Err(e)
    case Ok((more, n)) => Ok((body + more, n + 1))
  }

  /** The first record of an accepted message, and what is left of it. */
  lemma AcceptedStep(stream: seq<Record>, id: counter, total: Option<nat>, offset: nat, body: seq<byte>, n: nat)
    requires Reassembled(stream, id, total, offset) == Ok((body, n))
    ensures stream != [] && ParseFragment(stream[0]).Ok?
    ensures var f := ParseFragment(stream[0]).value;
            && f.body != [] && FragmentError(f, id, total, offset).None? && f.body <= body
            && if f.last then body == f.body && n == 1
               else n > 0 &&
                    Reassembled(stream[1..], id, Some(f.total), offset + |f.body|) == Ok((body[|f.body|..], n - 1))
  {
    FragmentNotEmpty(stream[0]);
    hide ParseFragment, FragmentError;
    var f := ParseFragment(stream[0]).value;
    if !f.last {
      var rest := Reassembled(stream[1..], id, Some(f.total), offset + |f.body|);
      assert body == f.body + rest.value.0;
      assert body[|f.body|..] == rest.value.0;
    }
  }

  /** What the reader accepts was carried by the records it took. */
  lemma {:induction false} AcceptedIsCarried(
    stream: seq<Record>, id: counter, total: Option<nat>, offset: nat, body: seq<byte>, n: nat)
    requires if total.None? then offset == 0 else offset > 0
    requires Reassembled(stream, id, total, offset) == Ok((body, n))
    ensures 1 <= n <= |stream| && Carries(stream[..n], id, offset + |body|, offset, body)
    ensures total.Some? ==> total.value == offset + |body|
    decreases |stream|
  {
    hide ParseFragment, Reassembled;
    AcceptedStep(stream, id, total, offset, body, n);
    var f := ParseFragment(stream[0]).value;
    if f.last {
      assert stream[..1] == [stream[0]];
    } else {
      AcceptedIsCarried(stream[1..], id, Some(f.total), offset + |f.body|, body[|f.body|..], n - 1);
      assert stream[..n][1..] == stream[1..][..n - 1];
    }
  }

  /** Whatever is carried at the head of a stream is accepted, and nothing behind it is touched. */
  lemma {:induction false} CarriedIsAccepted(
    stream: seq<Record>, id: counter, total: Option<nat>, all: nat, offset: nat, body: seq<byte>, n: nat)
    requires if total.None? then offset == 0 else offset > 0 && total == Some(all)
    requires n <= |stream| && Carries(stream[..n], id, all, offset, body)
    ensures Reassembled(stream, id, total, offset) == Ok((body, n))
    decreases |stream|
  {
    hide ParseFragment, FragmentError;
    assert stream[..n][0] == stream[0];
    var f := ParseFragment(stream[0]).value;
    FragmentNotEmpty(stream[0]);
    CarriedFits(f, id, total, all, offset);
    if !f.last {
      assert stream[..n][1..] == stream[1..][..n - 1];
      CarriedIsAccepted(stream[1..], id, Some(all), all, offset + |f.body|, body[|f.body|..], n - 1);
      assert body == f.body + body[|f.body|..];
    }
  }

  lemma CarriedFits(f: Fragment, id: counter, total: Option<nat>, all: nat, offset: nat)
    requires if total.None? then offset == 0 else offset > 0 && total == Some(all)
    requires f.id == id && f.total == all && f.offset == offset && (offset == 0 ==> f.first)
    requires offset + |f.body| <= all && (f.last <==> offset + |f.body| == all)
    ensures FragmentError(f, id, total, offset).None?
  {
  }

  lemma FragmentNotEmpty(r: Record)
    requires ParseFragment(r).Ok?
    ensures ParseFragment(r).value.body != []
  {
  }

  class SecureReader {
    var nextMessage: counter
    var logical: seq<byte>
    var incoming: seq<Record>

    constructor (stream: seq<Record>)
      ensures nextMessage == 0 && incoming == stream
    {
      nextMessage, logical, incoming := 0, [], stream;
    }

    /** The tests of one more fragment; the first one sets the total. */
    method CheckFragment(f: Fragment, expected: counter, active: Option<nat>, offset: nat)
      returns (error: Option<SecureError>)
      ensures error == FragmentError(f, expected, active, offset)
      ensures error.None? ==>
                && offset + |f.body| <= f.total && (f.last <==> offset + |f.body| == f.total)
                && (active.Some? ==> f.total == active.value)
    {
      var total := active;
      if active.None? {
        if f.id != expected || f.offset != 0 || !f.first {
          return Some(OutOfOrder);
        }
        total := Some(f.total);
      }
      if f.id != expected || f.total != total.value || f.offset != offset || offset + |f.body| > f.total {
        return Some(OutOfOrder);
      }
      if f.last != (offset + |f.body| == f.total) {
        return Some(BadTermination);
      }
      error := None;
    }

    /** `read_logical`: the message is reassembled in the reused buffer. */
    method ReadLogical() returns (r: Option<SecureError>)
      modifies this
      ensures match Reassembled(old(incoming), old(nextMessage), None, 0)
              case Err(e) => r == Some(e) && nextMessage == old(nextMessage)
              case Ok((message, n)) =>
                && n <= |old(incoming)| && incoming == old(incoming)[n..] && logical == message
                && (if old(nextMessage) + 1 < COUNTER_LIMIT then r.None? && nextMessage == old(nextMessage) + 1
                    else r == Some(CounterExhausted) && nextMessage == old(nextMessage))
    {
      hide ParseFragment, FragmentError;
      var expected := nextMessage;
      logical := [];
      var active: Option<nat> := None;
      AfterNothing(Reassembled(incoming, expected, None, 0));
      while true
        invariant |incoming| <= |old(incoming)| && incoming == old(incoming)[|old(incoming)| - |incoming|..]
        invariant nextMessage == expected == old(nextMessage)
        invariant active.None? ==> logical == []
        invariant Reassembled(old(incoming), expected, None, 0) ==
                  After(logical, |old(incoming)| - |incoming|, Reassembled(incoming, expected, active, |logical|))
        decreases |incoming|
      {
        if incoming == [] {
          return Some(Io);
        }
        var record := incoming[0];
        incoming := incoming[1..];
        var parsed := ParseFragment(record);
        if parsed.Err? {
          return Some(parsed.error);
        }
        var f, offset := parsed.value, |logical|;
        var fault := CheckFragment(f, expected, active, offset);
        if fault.Some? {
          return fault;
        }
        active := Some(f.total);
        var end := offset + |f.body|;
        if !f.last {
          AfterMore(logical, |old(incoming)| - |incoming| - 1, f.body, Reassembled(incoming, expected, active, end));
        }
        logical := logical + f.body;
        if end == f.total {
          if nextMessage + 1 >= COUNTER_LIMIT {
            return Some(CounterExhausted);
          }
          nextMessage := nextMessage + 1;
          return None;
        }
        if f.last {
          assert false;
        }
      }
    }

    /** `read_frame`: one message, which must be exactly one frame. */
    method ReadFrame() returns (r: Result<Raw, SecureError>)
      modifies this
      ensures match Reassembled(old(incoming), old(nextMessage), None, 0)
              case Err(e) => r == Err(e) && nextMessage == old(nextMessage)
              case Ok((message, n)) =>
                && n <= |old(incoming)| && incoming == old(incoming)[n..]
                && (if old(nextMessage) + 1 < COUNTER_LIMIT
                    then r == FrameOf(message) && nextMessage == old(nextMessage) + 1
                    else r == Err(CounterExhausted) && nextMessage == old(nextMessage))
    {
      hide Reassembled, DecodeFrame;
      var error := ReadLogical();
      if error.Some? {
        return Err(error.value);
      }
      var decoded := DecodeFrame(logical);
      match decoded {
        case Err(e) => r := Err(BadFrame(e));
        case Ok((frame, consumed)) => r := if consumed != |logical| then Err(TrailingBytes) else Ok(frame);
      }
    }
  }

  /** The frame a whole message stands for. */
  function FrameOf(message: seq<byte>): Result<Raw, SecureError>
  {
    match DecodeFrame(message)
    case Err(e) => Err(BadFrame(e))
    case Ok((frame, consumed)) => if consumed != |message| then Err(TrailingBytes) else Ok(frame)
  }

  /** What was read so far, in front of what the rest comes to. */
  function After(got: seq<byte>, k: nat, rest: Result<(seq<byte>, nat), SecureError>)
    : Result<(seq<byte>, nat), SecureError>
  {
    match rest
    case Err(e) => Err(e)
    case Ok((more, n)) => Ok((got + more, n + k))
  }

  lemma AfterNothing(rest: Result<(seq<byte>, nat), SecureError>)
    ensures After([], 0, rest) == rest
  {
    if rest.Ok? {
      assert [] + rest.value.0 == rest.value.0;
    }
  }

  lemma AfterMore(got: seq<byte>, k: nat, body: seq<byte>, rest: Result<(seq<byte>, nat), SecureError>)
    ensures After(got, k, Extended(body, rest)) == After(got + body, k + 1, rest)
  {
    if rest.Ok? {
      assert got + (body + rest.value.0) == (got + body) + rest.value.0;
    }
  }

  // ----- what the layer promises ----------------------------------------

  /**
   `read_logical` succeeds exactly on a stream that begins with records carrying the message, and
   takes just these: no more of them than the message has bytes, under the expected identifier.
   */
  lemma ReaderAcceptsExactly(stream: seq<Record>, id: counter, body: seq<byte>, n: nat)
    ensures Reassembled(stream, id, None, 0) == Ok((body, n)) <==>
            n <= |stream| && Carries(stream[..n], id, |body|, 0, body)
    ensures Reassembled(stream, id, None, 0) == Ok((body, n)) ==>
              1 <= n <= |body| <= MAX_SECURE_FRAME_SIZE && Bodies(stream[..n]) == body
  {
    hide Reassembled, ParseFragment;
    if Reassembled(stream, id, None, 0) == Ok((body, n)) {
      AcceptedIsCarried(stream, id, None, 0, body, n);
      CarriedLength(stream[..n], id, |body|, 0, body);
      CarriedBodies(stream[..n], id, |body|, 0, body);
      assert stream[..n][0] == stream[0];
      TotalWithinLimit(stream[0]);
    }
    if n <= |stream| && Carries(stream[..n], id, |body|, 0, body) {
      CarriedIsAccepted(stream, id, None, |body|, 0, body, n);
    }
  }

  lemma TotalWithinLimit(r: Record)
    requires ParseFragment(r).Ok?
    ensures ParseFragment(r).value.total <= MAX_SECURE_FRAME_SIZE
  {
  }

  /** What a writer puts on the connection for a list of frames. */
  function Written(frames: seq<Raw>, next: counter): seq<Record>
    requires forall i :: 0 <= i < |frames| ==> ValidRaw(frames[i])
    requires next + |frames| < COUNTER_LIMIT
  {
    if frames == [] then []
    else Split(next, Encoded(frames[0]), 0) + Written(frames[1..], next + 1)
  }

  datatype Reading = Reading(frames: seq<Raw>, rest: seq<Record>, next: counter)

  /** What a reader makes of a stream when it is asked for `k` frames. */
  function ReadAll(stream: seq<Record>, next: counter, k: nat): Result<Reading, SecureError>
  {
    if k == 0 then Ok(Reading([], stream, next))
    else
      match Reassembled(stream, next, None, 0)
      case Err(e) => Err(e)
      case Ok((message, n)) =>
        if n > |stream| || next + 1 >= COUNTER_LIMIT then Err(CounterExhausted)
        else match FrameOf(message)
          case Err(e) => Err(e)
          case Ok(f) =>
            match ReadAll(stream[n..], next + 1, k - 1)
            case Err(e) => Err(e)
            case Ok(rest) => Ok(rest.(frames := [f] + rest.frames))
  }

  lemma OneFrameRoundTrip(f: Raw, id: counter, rest: seq<Record>)
    requires ValidRaw(f)
    ensures var records := Split(id, Encoded(f), 0);
            Reassembled(records + rest, id, None, 0) == Ok((Encoded(f), |records|))
    ensures FrameOf(Encoded(f)) == Ok(f)
  {
    hide Reassembled, ParseFragment, DecodeFrame;
    var message := Encoded(f);
    var records := Split(id, message, 0);
    SplitCarries(id, message, 0);
    assert message[0..] == message;
    assert (records + rest)[..|records|] == records;
    CarriedIsAccepted(records + rest, id, None, |message|, 0, message, |records|);
    DecodeEncoded(f, []);
    assert message + [] == message;
  }

  /** Any list of frames is read back as written, with nothing left over and equal counters. */
  lemma {:induction false} FramesRoundTrip(frames: seq<Raw>, next: counter, rest: seq<Record>)
    requires forall i :: 0 <= i < |frames| ==> ValidRaw(frames[i])
    requires next + |frames| < COUNTER_LIMIT
    ensures ReadAll(Written(frames, next) + rest, next, |frames|) == Ok(Reading(frames, rest, next + |frames|))
    decreases |frames|
  {
    hide Reassembled, FrameOf, Split;
    if frames == [] {
      assert [] + rest == rest;
    } else {
      var records := Split(next, Encoded(frames[0]), 0);
      var more := Written(frames[1..], next + 1);
      OneFrameRoundTrip(frames[0], next, more + rest);
      assert Written(frames, next) + rest == records + (more + rest);
      assert (records + (more + rest))[|records|..] == more + rest;
      FramesRoundTrip(frames[1..], next + 1, rest);
      assert frames == [frames[0]] + frames[1..];
    }
  }

  /** FIRST on a later fragment is not refused, so acceptance says nothing about it there. */
  lemma FirstMayRepeat()
    ensures exists stream :: |stream| == 2 && Reassembled(stream, 0, None, 0) == Ok(([7, 7], 2)) &&
              ParseFragment(stream[1]).Ok? && ParseFragment(stream[1]).value.first
  {
    hide FragmentBytes, ParseFragment;
    var f, g := Fragment(true, false, 0, 2, 0, [7]), Fragment(true, true, 0, 2, 1, [7]);
    ParseFragmentBytes(f);
    ParseFragmentBytes(g);
    var stream := [FragmentBytes(f), FragmentBytes(g)];
    assert stream[1..] == [FragmentBytes(g)];
    assert Reassembled(stream[1..], 0, Some(2), 1) == Ok(([7], 1));
    assert [7] + [7] == [7, 7];
    assert Reassembled(stream, 0, None, 0) == Extended([7], Reassembled(stream[1..], 0, Some(2), 1));
  }
}
