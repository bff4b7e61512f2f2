/**
 Control messages, frames and the validation of a transfer request.
 Message texts are constants of the program, so a reason is a name for its text.
 */
module Wire {
  import opened Wrappers
  import FileNames
  import FrameCodec

  const MAX_TRANSFER_FILES: nat := 256
  const MAX_TRANSFER_BYTES: nat := 4 * 1024 * 1024 * 1024 * 1024
  const U64_LIMIT: nat := 0x1_0000_0000_0000_0000

  type u64 = x: int | 0 <= x < 0x1_0000_0000_0000_0000

  datatype TransferFile = TransferFile(name: string, size: u64, sha256: string)

  /** Why an answer of the other side was not acceptable. */
  datatype Violation =
    | ExpectedRequest | ExpectedControl
    | UnexpectedWhileWaiting
    | OutOfOrder | ExpectedNextFile
    | FileSizeOverflow | FileTooLong | TransferSizeOverflow | InvalidDuringFile
    | SizeMismatch | TotalMismatch | NotCompleted
    | DecisionIdMismatch | ExpectedDecision | ResultIdMismatch
    | UnexpectedControl | UnexpectedData | CompletedTooEarly

  datatype TransferError =
    | Canceled | RemoteCanceled | ShuttingDown
    | Timeout | Connection | ConnectionClosed
    | Protocol | IncompatibleVersion | InvalidPeerResponse(violation: Violation)
    | RemoteFailure | TrustRejected | TrustTimeout | IdentityChanged
    | FileRead | Prepare | UnsupportedSelection
    | Destination | DiskFull | Verification | AppUnavailable

  predicate IsCancelled(e: TransferError) { e == Canceled || e == RemoteCanceled || e == ShuttingDown }

  datatype Reason = CancelledText | BusyText | ExpiredText | DeclinedText | ErrorText(error: TransferError)

  datatype Message =
    | Hello
    | ProtocolError
    | TransferRequest(id: string, files: seq<TransferFile>, total: u64)
    | TransferDecision(id: string, accepted: bool, reason: Option<Reason>)
    | FileStart(id: string, index: nat)
    | FileEnd(id: string, index: nat)
    | Complete(id: string)
    | TransferResult(id: string, success: bool, reason: Option<Reason>)
    | Cancel(id: string)

  datatype Frame = Control(message: Message) | Data(bytes: Bytes)

  /** What the frame codec delivers: data frames are neither empty nor over the limit. */
  predicate DeliverableFrame(f: Frame)
  {
    f.Data? ==> FrameCodec.ValidRaw(FrameCodec.Raw(FrameCodec.DATA_FRAME, f.bytes))
  }

  /** What reading a frame comes to. */
  datatype ReadOutcome = Got(frame: Frame) | ReadFailed(error: TransferError)

  /** What reading or writing a frame can fail with. */
  predicate IsWireError(e: TransferError)
  {
    e in {TransferError.Canceled, ShuttingDown, Timeout, Connection, ConnectionClosed, Protocol,
          IncompatibleVersion, IdentityChanged}
  }

  predicate IsSuccess(m: Message) { m.TransferResult? && m.success }

  // ----- validation ------------------------------------------------------

  predicate IsLowerHex(c: char) { '0' <= c <= '9' || 'a' <= c <= 'f' }

  predicate IsHex(c: char) { IsLowerHex(c) || 'A' <= c <= 'F' }

  /** A canonical lower-case hyphenated UUID other than the nil UUID. */
  predicate ValidTransferId(id: string)
  {
    && |id| == 36
    && (forall i :: 0 <= i < 36 ==> if i in {8, 13, 18, 23} then id[i] == '-' else IsLowerHex(id[i]))
    && (exists i :: 0 <= i < 36 && id[i] != '-' && id[i] != '0')
  }

  predicate ValidFile(file: TransferFile)
  {
    && FileNames.SafeFileName(file.name)
    && |file.sha256| == 64
    && (forall i :: 0 <= i < 64 ==> IsHex(file.sha256[i]))
  }

  /** An identifier by code point: lower-case hexadecimal digits, four hyphens, and not all zero. */
  lemma IdForm(id: string)
    ensures ValidTransferId(id) <==>
            && |id| == 36 && id[8] == id[13] == id[18] == id[23] == '-'
            && (forall i :: 0 <= i < 36 && i != 8 && i != 13 && i != 18 && i != 23 ==>
                  48 <= id[i] as int <= 57 || 97 <= id[i] as int <= 102)
            && !(forall i :: 0 <= i < 36 && i != 8 && i != 13 && i != 18 && i != 23 ==> id[i] == '0')
  {
    if |id| == 36 && id[8] == id[13] == id[18] == id[23] == '-' {
      forall i | 0 <= i < 36 ensures IsLowerHex(id[i]) <==> 48 <= id[i] as int <= 57 || 97 <= id[i] as int <= 102 {
      }
    }
  }

  /** A digest by code point: 64 hexadecimal digits of either case. */
  lemma FileForm(file: TransferFile)
    ensures ValidFile(file) <==>
            && FileNames.SafeFileName(file.name) && |file.sha256| == 64
            && forall i :: 0 <= i < 64 ==>
                 var c := file.sha256[i] as int; 48 <= c <= 57 || 65 <= c <= 70 || 97 <= c <= 102
  {
    hide FileNames.SafeFileName;
  }

  /** The sum of the advertised sizes. */
  function TotalSize(files: seq<TransferFile>): nat
  {
    if files == [] then 0 else TotalSize(files[..|files| - 1]) + files[|files| - 1].size
  }

  predicate ValidRequest(id: string, files: seq<TransferFile>, total: nat)
  {
    && ValidTransferId(id)
    && 1 <= |files| <= MAX_TRANSFER_FILES
    && (forall i :: 0 <= i < |files| ==> ValidFile(files[i]))
    && TotalSize(files) == total
    && TotalSize(files) <= MAX_TRANSFER_BYTES
  }

  datatype RequestError = BadId | BadFileCount | BadFile | SizeOverflow | BadTotal

  /** `validate_transfer_request`, with its checked accumulation. */
  method ValidateTransferRequest(id: string, files: seq<TransferFile>, total: u64)
    returns (r: Option<RequestError>)
    ensures r.None? <==> ValidRequest(id, files, total)
    ensures r == Some(SizeOverflow) ==> TotalSize(files) >= U64_LIMIT
  {
    hide ValidFile, ValidTransferId;
    if !ValidTransferId(id) {
      return Some(BadId);
    }
    if |files| == 0 || |files| > MAX_TRANSFER_FILES {
      return Some(BadFileCount);
    }
    var advertised: u64 := 0;
    for i := 0 to |files|
      invariant advertised == TotalSize(files[..i])
      invariant forall k :: 0 <= k < i ==> ValidFile(files[k])
    {
      if !ValidFile(files[i]) {
        return Some(BadFile);
      }
      assert files[..i + 1][..i] == files[..i];
      TotalSizeMonotone(files, i + 1);
      if advertised + files[i].size >= U64_LIMIT {
        return Some(SizeOverflow);
      }
      advertised := advertised + files[i].size;
    }
    assert files[..|files|] == files;
    if advertised != total || advertised > MAX_TRANSFER_BYTES {
      return Some(BadTotal);
    }
    r := None;
  }

  lemma {:induction false} TotalSizeMonotone(files: seq<TransferFile>, k: nat)
    requires k <= |files|
    ensures TotalSize(files[..k]) <= TotalSize(files)
  {
    if k < |files| {
      var front := files[..|files| - 1];
      assert front[..k] == files[..k];
      TotalSizeMonotone(front, k);
    } else {
      assert files[..k] == files;
    }
  }

  lemma SizeWithinTotal(files: seq<TransferFile>, k: nat)
    requires k < |files|
    ensures TotalSize(files[..k]) + files[k].size <= TotalSize(files)
  {
    TotalSizeStep(files, k);
    TotalSizeMonotone(files, k + 1);
  }

  lemma TotalSizeStep(files: seq<TransferFile>, k: nat)
    requires k < |files|
    ensures TotalSize(files[..k + 1]) == TotalSize(files[..k]) + files[k].size
  {
    assert files[..k + 1][..k] == files[..k];
  }

  // ----- digests ---------------------------------------------------------

  function AsciiLowerChar(c: char): char {
    if 'A' <= c <= 'Z' then (c as int + 32) as char else c
  }

  /** `digest_matches`: equal without ASCII case. */
  predicate DigestMatches(expected: string, actual: string)
  {
    && |expected| == |actual|
    && forall i :: 0 <= i < |expected| ==> AsciiLowerChar(expected[i]) == AsciiLowerChar(actual[i])
  }

  /** One character, or the upper and the lower case of one ASCII letter. */
  predicate SameButForCase(a: char, b: char)
  {
    || a == b
    || ('A' <= a <= 'Z' && b as int - a as int == 'a' as int - 'A' as int)
    || ('A' <= b <= 'Z' && a as int - b as int == 'a' as int - 'A' as int)
  }

  predicate SameDigest(expected: string, actual: string)
  {
    |expected| == |actual| && forall k :: 0 <= k < |expected| ==> SameButForCase(expected[k], actual[k])
  }

  /** The test lowers both texts; it tells apart all that differs in more than the case of ASCII letters. */
  lemma DigestsCompared(expected: string, actual: string)
    ensures DigestMatches(expected, actual) <==>
            |expected| == |actual| && forall k :: 0 <= k < |expected| ==> SameButForCase(expected[k], actual[k])
  {
    if |expected| == |actual| {
      forall k | 0 <= k < |expected|
        ensures AsciiLowerChar(expected[k]) == AsciiLowerChar(actual[k]) <==> SameButForCase(expected[k], actual[k])
      {
      }
    }
  }
}
