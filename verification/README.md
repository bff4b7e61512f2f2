# Drop: verification of the transfer engine

Drop sends files between two devices over an authenticated connection. This project models the
parts of it whose correctness is hardest to see by reading one function, and proves their
properties in Dafny.

- **The transfer protocol and the receive folder.** Sender (`Sender.dfy`) and receiver
  (`Receiver.dfy`) are step machines: a step is what runs between two suspension points, an event
  names the outcome of the suspended operation, and an event that is impossible in a state changes
  nothing. Their invariants (`SenderSafety.dfy`, `ReceiverSafety.dfy`) hold in every run;
  `ReceiverTheorems.dfy` draws the consequences for the folder, and `Agreement.dfy` joins the two
  by the histories of what each side sent and read. `SenderMonitor.dfy` has what the frame read
  beside the sending loop does to it. `Delivery.dfy` is the other direction: every valid batch can
  be delivered, and `FreeNames.dfy` counts the names and keys that takes. `ReceiverAnswers.dfy` has
  what a receiver may say and when, and `Consent.dfy` that nothing is streamed without consent.
  `Cancellation.dfy` has what a set token brings about, `ReceiverProgress.dfy` and
  `SenderProgress.dfy` that the progress shown is that of the bytes.
- **The engines as the source runs them.** `ReceiveFolder.dfy` has the file operations with their
  retry loops while other processes add files; `IncomingEngine.dfy` and `OutgoingEngine.dfy` have
  the loops, early returns and clean-up of the two engines. Each engine carries a ghost copy of its
  machine and proves that it takes exactly the machine's steps, so the theorems about runs apply.
- **Framing.** `FrameCodec.dfy` and `SecureChannel.dfy`: splitting a frame into numbered fragments
  and reassembling them.
- **Names.** `FileNames.dfy` and `CollisionNames.dfy`: portable names and numbered variants, with
  UTF-8 lengths.
- **Peers and routes.** `EndpointView.dfy`, `PeerRegistry.dfy`, `Routing.dfy`, `RouteRace.dfy`.
- **Shared application state.** `AppState.dfy` and `CancellationToken.dfy`: any number of threads,
  one step for each lock operation or access to an atomic.
- **Updates.** `SemVer.dfy`: version parsing and comparison.

`Wrappers.dfy`, `Text.dfy` and `Order.dfy` hold what these share. `dafny verify dfyconfig.toml`
checks everything.

## Conventions

- The environment is nondeterministic: any frame may arrive, any operation may fail, tokens may be
  set and other processes may create files at every suspension point. Other processes replace
  nothing and leave the names of existing staging files alone.
- A frame reaches the other side in order or not at all; a failing write may still have arrived.
- Message texts are names of their reasons, addresses and instants are numbers of which only the
  order matters, and the digest function and the platform's path key are arbitrary functions.
- A completed transfer is not promised the converse way: the receiver completes even if its
  acknowledgement is lost, and `Delivery.AgreementIsOneWay` shows such a run for every batch.
- Whether an observation's effect is "nothing" or "refreshed" depends on the order of a hash map,
  because lists taken from one are compared: the claim is made of the order the map happened to have.

## Model

| member | source | states |
|---|---|---|
| Agreement.SenderCompletedMeansDelivered | src-tauri/src/transfer.rs:499-636 | In every run of one sender and one receiver, with cancels, disconnects, shutdowns and failing file operations at any turn: if the sender ends completed, the receiver is past every error path and holds, under its final names, exactly the bytes the sender streamed, with the announced sizes and digests |
| Agreement.DeliveryIsForever | src-tauri/src/transfer.rs:1102-1126 | After the sender completed, no continuation of the run removes or changes a delivered file, and the receiver never rolls back |
| Agreement.CompletedMeansAgreed | src-tauri/src/transfer.rs:1102-1126 | The joint invariant alone gives agreement on identity, files, total and contents |
| Agreement.NextKeepsInvariant | src-tauri/src/transfer.rs:355-650 | Every turn of either party, with frames read only in the order sent, keeps both parties' invariants and the prefix relation between what was sent and what was read |
| Consent.StreamedOnlyWithConsent | src-tauri/src/transfer.rs:438-498 | In every joint run: while a sender streams or after it completed, the recipient has answered yes to this very transfer, while it was pending and with no token set |
| Consent.RefusalTurnsDown | src-tauri/src/transfer.rs:460-482 | In every joint run a refusal read while waiting ends the sender turned down, with nothing streamed, and shows a cancellation only for the cancellation text |
| Consent.DeclinedIsNeverStreamed | src-tauri/src/transfer.rs:893-911 | Once the receiver has ended declined, the sender streams or completes in no continuation |
| Cancellation.CancelledNeverCompletes | src-tauri/src/transfer.rs:1029-1100 | In every run: if a token is set before the last test was passed, no continuation completes the transfer, and at most the file being moved still gets its final name |
| Cancellation.CancelledSendsNoMore | src-tauri/src/transfer.rs:1815-1845 | In every outgoing run: once a token is set, no continuation sends more than the frame being written and a cancellation, nothing if the connection was not opened, and none succeeds unless the declaration was being written or is out |
| Cancellation.CancelledOnOneSide | src-tauri/src/transfer.rs:1077-1126 | In every joint run: if the receiver is told to stop before its last test, the sender reports completion in no continuation |
| Cancellation.TestsStopTheTransfer | src-tauri/src/transfer.rs:1906-1917 | Each of the four tests of the receiver undoes the transfer exactly if a token is set, and names a shutdown before a cancellation |
| Delivery.EveryBatchCanBeDelivered | src-tauri/src/transfer.rs:1130-1282 | For every valid batch whose sources hold what it announces, with repeated or taken names included, there is a run in which both sides complete and every body arrives byte for byte, each under its own name or a numbered variant, and under exactly the announced names if all of them are free; the folder must hold no staging file of this transfer and, where names are taken or repeated, fewer files than a name has variants, with a path key that tells the variants of a name apart |
| Delivery.AgreementIsOneWay | src-tauri/src/transfer.rs:1102-1126 | The converse of agreement is false for every such batch: a run exists in which only the acknowledgement is lost, the receiver completes and the sender fails with a timeout |
| Delivery.ChunkMoved | src-tauri/src/transfer.rs:538-579 | A chunk read from a source is announced, written, received, stored and counted alike on both sides, for every file and offset |
| Delivery.FileClosed | src-tauri/src/transfer.rs:1226-1255 | A file whose bytes all arrived passes the size and digest tests and both sides move to the next file or to the end of the batch |
| Transcript.CompleteIsFinal | src-tauri/src/transfer.rs:1263-1282 | A frame sequence that declared completion says the same whatever is appended to it |
| ReceiverSafety.StepKeepsInvariant | src-tauri/src/transfer.rs:849-1127 | The receiver's invariant over folder, contents, path keys, byte counts, snapshots, consumed and sent frames is kept by every event in every state |
| ReceiverTheorems.AllOrNothing | src-tauri/src/transfer.rs:1406-1431 | A run that ends other than completed leaves exactly the other processes' files, including after a failure halfway through finalization, if every removal succeeded |
| ReceiverTheorems.FailureLeavesNoTrace | src-tauri/src/transfer.rs:1406-1431 | If moreover no other process added files, such a run leaves the folder exactly as it found it |
| ReceiverTheorems.CompletedAddsExactly | src-tauri/src/transfer.rs:1029-1076 | A completed run adds exactly n files under n names with pairwise different keys, each with the announced size and, character by character but for ASCII case, the announced digest, and leaves no staging file |
| Wire.DigestsCompared | src-tauri/src/transfer.rs:1402-1404 | The digest test accepts exactly equally long texts whose characters agree, or are the two cases of one ASCII letter, at every position |
| ReceiverTheorems.CompletedDigests | src-tauri/src/transfer.rs:1244-1256 | In every completed run every character of every file's digest is the announced one, but for ASCII case |
| ReceiverTheorems.OtherDigestIsRefused | src-tauri/src/transfer.rs:1250-1254 | A flushed file of the announced size whose digest differs in length or in any other character is refused with the verification error |
| ReceiverTheorems.NothingForeignIsTouched | src-tauri/src/transfer_files.rs:119-223 | Whatever was in the folder before and whatever other processes add at any moment stays there unchanged, in every run |
| ReceiverTheorems.BytesAreConserved | src-tauri/src/transfer.rs:1144-1274 | Bytes counted are the finished files' sizes plus what the open staging file holds; a file stays within its announced size and the batch within its total and 4 TiB |
| ReceiverTheorems.ImpossibleErrors | src-tauri/src/transfer.rs:1192-1273 | Both overflow errors and the total mismatch never occur: a validated request rules them out |
| ReceiverTheorems.SnapshotsAreOrderly | src-tauri/src/transfer.rs:849-1127 | Every incoming run shows at most one terminal snapshot, and last; exactly one once it has ended after admission; no requested phase change is refused; phases follow the order of a transfer; shown bytes only grow, up to the total |
| ReceiverTheorems.EndIsShown | src-tauri/src/transfer_events.rs:233-243 | Every ended incoming transfer leaves the phase of its outcome: completed, rejected, cancelled for a cancellation or shutdown on either side, failed for every other error |
| ReceiverProgress.NeverShowsMore | src-tauri/src/transfer.rs:1206-1224 | No snapshot of any incoming run shows more bytes than were counted onto the disk, and a completed one shows the whole batch in its last |
| ReceiverProgress.ChunkIsShown | src-tauri/src/transfer_events.rs:199-231 | In every run a stored chunk gives, unless a report was made within the interval, one more snapshot with exactly the bytes that arrived and the least time the rest needs at the measured speed |
| ReceiverAnswers.StepKeepsSent | src-tauri/src/transfer.rs:849-1127 | At every point of every run the frames sent are exactly those the program has written there: nothing before the verdict, the acceptance while it works, then the result, or a cancellation and the error |
| ReceiverAnswers.AcceptedOnlyByRecipient | src-tauri/src/transfer.rs:1438-1472 | In every run at most one decision is sent, first and under the own id, and an acceptance only after the recipient said yes while waiting with no token set |
| ReceiverAnswers.DeclinedMeansRefused | src-tauri/src/transfer.rs:893-911 | A run that ends declined has sent exactly one refusal, under its own id, for a recipient who said no or a deadline that passed while waiting |
| ReceiverSafety.RoomLeft | src-tauri/src/protocol.rs:358-382 | While a file is open, its announced rest fits into what the validated total leaves |
| ReceiverSafety.TotalIsExact | src-tauri/src/transfer.rs:1263-1273 | When the declaration of completion arrives, the counted bytes equal the announced total |
| ReceiverSafety.FileFinalizedFolder | src-tauri/src/transfer_files.rs:119-161 | A no-replace move keeps the account of which names belong to the run and which to other processes |
| SenderSafety.StepKeepsInvariant | src-tauri/src/transfer.rs:355-650 | The sender's invariant is kept by every event: the frames sent spell exactly what was read from the sources, and a success it acts on was heard from the receiver under its own transfer id |
| SenderSafety.SnapshotsAreOrderly | src-tauri/src/transfer.rs:316-353 | Every outgoing run shows exactly one terminal snapshot once ended, and last; no phase change is refused; phases follow the order of a transfer; shown bytes only grow, up to the total |
| SenderSafety.EndIsShown | src-tauri/src/transfer.rs:316-353 | Every ended outgoing transfer leaves the phase of its outcome |
| SenderProgress.ShowsWhatWasSent | src-tauri/src/transfer.rs:538-579 | Until the last file is closed no snapshot of any outgoing run shows more than the bytes written as data frames; a completed run ends with the whole batch shown |
| SenderProgress.ChunkIsShown | src-tauri/src/transfer.rs:566-579 | In every run a written chunk gives, unless a report was made within the interval, one more snapshot with the bytes written as data frames, up to the total, and the least time for the rest |
| SenderMonitor.PendingSignal | src-tauri/src/transfer.rs:1847-1864 | In every run, no error is pending exactly while the monitor is off or watching; a second frame heard is pending as the error it calls for, a result before the end as a violation; a stopped monitor means shutdown |
| SenderMonitor.HeardFrameStopsSending | src-tauri/src/transfer.rs:1815-1845 | Before every write of every run: without a token the frame is written exactly if the receiver was not heard of, and a frame heard withdraws the batch with the error it calls for |
| SenderMonitor.EarlyFrameEndsTheStream | src-tauri/src/transfer.rs:1767-1864 | Once a second frame was heard, at most the frame being written and a cancellation are still sent in any continuation, and none succeeds unless the declaration was being written or is out |
| SenderMonitor.OneFrameDecides | src-tauri/src/transfer.rs:605-636 | After the declaration the run succeeds exactly if the one frame heard is a success under its own transfer id, and waits exactly while none was heard |
| Lifecycle.TransitionSound | src-tauri/src/models.rs:219-249 | A permitted phase change appends one snapshot and keeps the history orderly: phases in the order of a transfer, none after a terminal one, bytes only growing |
| Lifecycle.TransitionsAreInOrder | src-tauri/src/models.rs:219-249 | A change is permitted exactly to the same phase, the next one in the order of a transfer, or from any that goes on to a cancellation or a failure |
| Lifecycle.ProgressSound | src-tauri/src/transfer_events.rs:199-231 | Progress never lowers the shown bytes nor exceeds the total, throttled or forced |
| Lifecycle.FinishErrorSound | src-tauri/src/transfer_events.rs:233-243 | An error ends in the failed or the cancelled phase, and a finished tracker stays as it is |
| Lifecycle.SoundEndsOnce | src-tauri/src/transfer_events.rs:179-243 | A finished tracker has emitted exactly one terminal snapshot, as its last |
| Lifecycle.TransferTracker.ChangePhase | src-tauri/src/transfer_events.rs:179-197 | The in-place tracker changes phase, or records a refusal, as the lifecycle says |
| Lifecycle.TransferTracker.Report | src-tauri/src/transfer_events.rs:199-231 | The in-place progress report equals the specified one, with throttling, clamping and the remaining-time estimate |
| Lifecycle.TransferTracker.Finish | src-tauri/src/transfer_events.rs:233-243 | Finishing with an error equals the specified one |
| CollisionNames.MakeCollisionName | src-tauri/src/transfer_files.rs:65-102 | The in-place cutting of stem and extension yields the specified numbered variant |
| CollisionNames.CollisionNameFits | src-tauri/src/transfer_files.rs:65-96 | No variant is longer than 255 bytes, whatever the stem and the extension |
| CollisionNames.VariantSpelled | src-tauri/src/transfer_files.rs:65-102 | Where everything fits, variant k of a name with an extension is the stem, the number in parentheses after a space, and the extension |
| CollisionNames.PlainVariantSpelled | src-tauri/src/transfer_files.rs:65-102 | Without an extension, or with a leading dot alone, the number stands at the end, after as much of the name as fits |
| CollisionNames.CandidatesDistinct | src-tauri/src/transfer_files.rs:37-63 | Two numbered variants of one name are never the same string, for any extension |
| CollisionNames.FirstCandidateRepeats | src-tauri/src/transfer_files.rs:37-63 | Position 0 is outside that claim, and exactly so: a variant of a safe name is the name itself if and only if the name fills 255 bytes and its stem already ends with that number |
| CollisionNames.AllCandidatesDiffer | src-tauri/src/transfer_files.rs:37-63 | All candidates of a safe name differ if and only if the name is shorter than 255 bytes or its stem ends with no number |
| CollisionNames.FirstCandidateMayRepeat | src-tauri/src/transfer_files.rs:37-63 | Such a name exists: a safe name that is its own first variant |
| CollisionNames.CandidateStaysInFolder | src-tauri/src/transfer_files.rs:37-63 | A candidate of an accepted name has no separator and is no path step |
| CollisionNames.ExhaustedMeansFull | src-tauri/src/transfer_files.rs:22-63 | If all numbered variants are taken there are at least 100,000 taken names |
| FreeNames.ExhaustedMeansFullKeys | src-tauri/src/transfer_files.rs:22-63 | If all numbered variants are taken, as names or by their keys, and the key tells them apart, at least 100,000 keys are taken |
| FreeNames.FolderCount | src-tauri/src/transfer.rs:1130-1282 | While nothing is left over, the folder holds at most one name for each staged file beside what other processes put there |
| ReceiveFolder.FailedSearchMeansFull | src-tauri/src/transfer_files.rs:37-63 | If the path key tells the variants of the name apart, the search fails only if at least 100,000 keys are taken |
| ReceiveFolder.Directory.AvailableDestinationPath | src-tauri/src/transfer_files.rs:37-63 | Returns the first candidate that neither exists nor shares its key with the batch, and claims its key; fails only if every candidate is taken; other processes may add files between any two tests |
| ReceiveFolder.Directory.MoveStagedFile | src-tauri/src/transfer_files.rs:145-161 | Moves without replacing, directly or by a link and a removal; on failure nothing moved, and a second name remains only if taking it back failed |
| ReceiveFolder.Directory.LinkAndRemove | src-tauri/src/transfer_files.rs:148-158 | The hard-link fallback amounts to the same no-replace move, whatever others add between its steps |
| ReceiveFolder.LinkThenRemove | src-tauri/src/transfer_files.rs:148-158 | A link followed by a removal is a move, and a link taken back is nothing, whatever was added meanwhile |
| ReceiveFolder.Directory.FinalizeStagedFile | src-tauri/src/transfer_files.rs:119-143 | Ends at the reserved path or at a variant whose key was free at that moment; fails, with the folder as it was but for other processes' files, only if an operation failed, every attempt met an existing name, or every candidate is taken |
| ReceiveFolder.Directory.CleanupStaged | src-tauri/src/transfer_files.rs:176-208 | Tries to remove every staging file in order, up to three times each; exactly those whose removal succeeded are gone, every one kept was refused at least three times, and nothing else is touched |
| ReceiveFolder.KeptWasRefusedThrice | src-tauri/src/transfer_files.rs:176-208 | In every sequence of attempts clean-up can make, a staging name that is still there was refused three times |
| ReceiveFolder.Directory.RollbackFinalized | src-tauri/src/transfer_files.rs:210-223 | Tries to remove every finalized file once, last first; exactly those whose removal succeeded are gone, every one kept was refused, and nothing others put there meanwhile is touched |
| ReceiveFolder.KeptWasRefused | src-tauri/src/transfer_files.rs:210-223 | In every sequence of attempts roll-back can make, a finalized name that is still there was refused |
| ReceiveFolder.Directory.CreateStage | src-tauri/src/transfer.rs:1170-1185 | A staging file is created only where there was none |
| ReceiveFolder.Directory.Append | src-tauri/src/transfer.rs:1206-1219 | A failed write leaves a prefix of the chunk behind; a successful one all of it |
| IncomingEngine.IncomingEngine.ReceiveFiles | src-tauri/src/transfer.rs:1130-1282 | The loop over files and frames takes exactly the machine's steps: it ends with every file verified and the total matched, or with the first error |
| IncomingEngine.IncomingEngine.StreamFile | src-tauri/src/transfer.rs:1188-1239 | The chunk loop keeps received, hashed and counted bytes in step with the staging file |
| IncomingEngine.IncomingEngine.StoreChunk | src-tauri/src/transfer.rs:1206-1224 | One chunk is written, hashed, counted and reported, or the write error is replaced by the token that caused it |
| IncomingEngine.IncomingEngine.FinishFile | src-tauri/src/transfer.rs:1244-1255 | A file is accepted only after the flush, at its announced size and with the announced digest character by character but for ASCII case; a wrong size and a wrong digest are told apart |
| IncomingEngine.IncomingEngine.FinalizeAll | src-tauri/src/transfer.rs:1030-1076 | Files are finalized in order the tokens looked at before each; on an error the rest stays staged |
| IncomingEngine.IncomingEngine.FinalizeNext | src-tauri/src/transfer.rs:1062-1075 | One staged file reaches a final name that was free, and its key is claimed |
| IncomingEngine.IncomingEngine.FinishIncomingError | src-tauri/src/transfer.rs:1406-1431 | The attempts made are those of the clean-up of every staging file, then those of the roll-back of every finalized file, last first; if none was refused only other processes' files remain; the machine has ended with the error |
| IncomingEngine.IncomingEngine.WaitForDecision | src-tauri/src/transfer.rs:1438-1472 | The wait ends in a verdict, a cancellation still to be answered, or an error, whichever comes first |
| IncomingEngine.IncomingEngine.ReceiveIncoming | src-tauri/src/transfer.rs:849-1127 | The engine refines the machine from admission to its end, frame by frame of what it writes; at the end it has sent what its outcome calls for |
| IncomingEngine.IncomingEngine.HandleIncoming | src-tauri/src/transfer.rs:718-846 | The whole connection: other processes' files are untouched; a completed batch is delivered and the recipient had agreed to it; any other end leaves only their files if no removal was refused; the frames sent are those the outcome calls for; the interface saw one end, or nothing if nothing was admitted |
| IncomingEngine.WhatEndMeans | src-tauri/src/transfer.rs:849-1127 | At the end of any run the invariant gives delivery, or a clean folder, and one shown end |
| OutgoingEngine.OutgoingEngine.RunOutgoing | src-tauri/src/transfer.rs:316-353 | The outgoing engine refines the machine, frame by frame of what it writes: exactly one terminal snapshot, nothing refused, and after a success the frames sent spell exactly the streamed files and their completion |
| OutgoingEngine.OutgoingEngine.SendBatch | src-tauri/src/transfer.rs:511-604 | The loop over prepared files sends start, contents and end of each in order, then the declaration |
| OutgoingEngine.OutgoingEngine.SendContents | src-tauri/src/transfer.rs:538-579 | The chunk loop counts what it writes and stops at the end of the source or the first error |
| OutgoingEngine.OutgoingEngine.WriteWatched | src-tauri/src/transfer.rs:1815-1845 | The tokens are looked at first, then the monitor, then the frame is written |
| OutgoingEngine.OutgoingEngine.MonitorRemote | src-tauri/src/transfer.rs:1767-1795 | The monitor stops watching: either it read one frame and holds what that frame means, or its read failed with a connection error, or shutdown was requested |
| OutgoingEngine.OutgoingEngine.CheckRemoteSignal | src-tauri/src/transfer.rs:1847-1864 | No error exactly while nothing is pending; once a second frame was read, the error that frame calls for, so that an early result is a violation |
| OutgoingEngine.OutgoingEngine.HearDecision | src-tauri/src/transfer.rs:431-498 | Only an acceptance under the own transfer id starts the stream; every other answer ends the run as specified |
| OutgoingEngine.OutgoingEngine.AwaitOutcome | src-tauri/src/transfer.rs:605-636 | Only a success under the own transfer id completes the run |
| OutgoingEngine.OutgoingEngine.PrepareBatch | src-tauri/src/transfer.rs:364-390 | Prepared files pass the same validation the receiver applies, or the run fails |
| OutgoingEngine.SumSizes | src-tauri/src/transfer.rs:382-386 | The checked sum is the total, or absent exactly if the total exceeds 64 bits |
| Wire.ValidateTransferRequest | src-tauri/src/protocol.rs:358-382 | Accepts a request if and only if id, file count, every file, the total and the limits are valid; an overflow error means the true total exceeds 64 bits |
| Wire.SizeWithinTotal | src-tauri/src/protocol.rs:358-382 | A file and those before it never exceed the announced total |
| Wire.IdForm | src-tauri/src/protocol.rs:384-399 | A transfer id is accepted exactly in the hyphenated lower-case form of a UUID that is not nil, position by position |
| Wire.FileForm | src-tauri/src/protocol.rs:432-445 | A file is accepted exactly with a safe name and a digest of 64 hexadecimal digits of either case |
| FileNames.PortableFileName | src-tauri/src/protocol.rs:469-505 | The in-place pipeline equals the specified one and needs no fallback |
| FileNames.SanitizedIsSafe | src-tauri/src/protocol.rs:469-505 | Sanitizing any normalized name gives a safe name of at most 255 UTF-8 bytes, so the fallback is unreachable |
| FileNames.SafeNamesUnchanged | src-tauri/src/protocol.rs:447-505 | Sanitizing is the identity on safe names |
| FileNames.AcceptedNames | src-tauri/src/protocol.rs:447-467 | A name is accepted exactly if it has at most 255 bytes, does not end with a space or dot, holds no separator, reserved or control character, and is no device name in any case |
| FileNames.KeptCharacters | src-tauri/src/protocol.rs:469-505 | The edits keep every allowed character before the final run of spaces and dots, put an underscore for each other one, and only cut off what does not fit |
| FileNames.PortableIsBounded | src-tauri/src/protocol.rs:469-505 | That is the portable name, but that a device name gets an underscore in front |
| FileNames.PortableIdempotent | src-tauri/src/protocol.rs:469-505 | Sanitizing twice is sanitizing once |
| FileNames.ReplaceTrailingMarkers | src-tauri/src/protocol.rs:546-563 | Trailing spaces and dots become as many underscores |
| FrameCodec.EncodeFrame | src-tauri/src/protocol.rs:141-151 | Encodes exactly the valid frames and names the reason otherwise |
| FrameCodec.DecodeEncoded | src-tauri/src/protocol.rs:218-237 | An encoded frame is decoded exactly, with its length, whatever follows it |
| FrameCodec.DecodedWasEncoded | src-tauri/src/protocol.rs:218-237 | What the decoder takes is the encoding of the valid frame it returns |
| FrameCodec.BigEndianRoundTrip | src-tauri/src/protocol.rs:141-151 | Network byte order is read back |
| FrameCodec.FromBigEndianRoundTrip | src-tauri/src/protocol.rs:218-224 | Every byte string of a width is the encoding of the number it is read as |
| FrameCodec.ValidMeansNoError | src-tauri/src/protocol.rs:263-287 | The length test accepts exactly the frames within the limit of their kind, data frames being non-empty |
| SecureChannel.FramesRoundTrip | src-tauri/src/secure.rs:362-437 | Any list of valid frames written from any counter is read back as written, in order, with nothing left over and equal counters |
| SecureChannel.ReaderAcceptsExactly | src-tauri/src/secure.rs:439-534 | Reading succeeds if and only if the stream begins with records that carry the message: contiguous offsets, one identifier equal to the expected counter, one total, LAST exactly on the final record; at most as many records as bytes |
| SecureChannel.FirstMayRepeat | src-tauri/src/secure.rs:490-512 | FIRST on a later fragment is accepted, so acceptance says nothing about it there |
| SecureChannel.SplitCarries | src-tauri/src/secure.rs:396-435 | The writer's fragments of a message carry it |
| SecureChannel.CarriedIsAccepted | src-tauri/src/secure.rs:439-534 | What is carried at the head of a stream is accepted and nothing behind it is touched |
| SecureChannel.AcceptedIsCarried | src-tauri/src/secure.rs:439-534 | What is accepted was carried by exactly the records taken |
| SecureChannel.ParseFragmentBytes | src-tauri/src/secure.rs:404-408 | A fragment header is read back field by field |
| SecureChannel.FragmentBytesParse | src-tauri/src/secure.rs:454-489 | The reader accepts only records that are the bytes of a valid fragment |
| SecureChannel.RefusalReasons | src-tauri/src/secure.rs:454-489 | Which test refuses a record, by its length, version, flags, claimed total and payload |
| SecureChannel.SecureWriter.WriteFrame | src-tauri/src/secure.rs:362-437 | Writes exactly the fragments of the frame under the next counter; refuses invalid frames and an exhausted counter without effect; a failing connection leaves a prefix |
| SecureChannel.SecureWriter.BuildFragment | src-tauri/src/secure.rs:403-421 | The reused buffer holds the fragment header and the right slices of frame header and payload |
| SecureChannel.SecureReader.ReadLogical | src-tauri/src/secure.rs:439-534 | The reassembly loop equals the recursive specification, including every error; the premature-end branch is unreachable |
| SecureChannel.SecureReader.ReadFrame | src-tauri/src/secure.rs:122-140 | A message must be exactly one frame; trailing bytes are refused |
| Routing.RankedIsStableSort | src-tauri/src/routing.rs:6-18 | The ranking is a sorted permutation that keeps the order of endpoints the comparator cannot tell apart |
| Routing.PreferredIsFirst | src-tauri/src/routing.rs:29-39 | The preferred endpoint is the head of the ranking |
| Routing.RankingPrefers | src-tauri/src/routing.rs:6-57 | In the ranking no failing endpoint stands before an untried or working one and no untried before a working one; then direct, verified, overlay, remembered, other; then the lower address; then the source by text |
| Routing.ReachableComesFirst | src-tauri/src/routing.rs:6-57 | If any endpoint is known to work, the first of the ranking and the preferred one are |
| Routing.CompareLaws | src-tauri/src/routing.rs:8-16 | The comparator chain is a total preorder |
| RouteRace.Connector.Connect | src-tauri/src/transfer.rs:1498-1627 | For every schedule of completions, launch timers, deadline and tokens: the loop ends as the specified race does, with the same failures recorded, and has launched a prefix of the ranking, at most eight |
| RouteRace.RaceOutcome | src-tauri/src/transfer.rs:1498-1627 | For every schedule: an attempt wins if and only if its connection is noticed while the race is on; the race is stopped if and only if a token, or an attempt that saw one, is noticed; it times out if and only if the deadline is |
| RouteRace.GivesUpWhenAllFailed | src-tauri/src/transfer.rs:1498-1627 | The race is given up if and only if every candidate it may use was launched and was noticed to fail |
| RouteRace.FailuresAreRecorded | src-tauri/src/transfer.rs:1541-1572 | Exactly the attempts noticed to fail are recorded with the peer, each once and with its own reason; stopped and lost attempts are not |
| RouteRace.AttemptsAccounted | src-tauri/src/transfer.rs:1522-1572 | Every launched attempt either flies or has completed, and completes once |
| RouteRace.LaunchesAreStaggered | src-tauri/src/transfer.rs:1573-1602 | The n-th attempt starts no earlier than n stagger intervals after the race |
| RouteRace.NextLaunchIsDue | src-tauri/src/transfer.rs:1573-1602 | The next attempt is due exactly a stagger interval after the latest one, the first one at once |
| RouteRace.EveryCandidateStarts | src-tauri/src/transfer.rs:1573-1602 | If no attempt completes and nothing ends the race, every candidate it may use is started in turn |
| RouteRace.WorkingRouteIsTriedFirst | src-tauri/src/transfer.rs:1505-1602 | If any endpoint of the peer is known to work, the first attempt launched is to one that is |
| EndpointView.ReconcileEndpoints | src-tauri/src/peer.rs:237-311 | The rebuilt view is the sorted, duplicate-free list of observed addresses, each with the best source and class, the newest time and the history-dependent reachability |
| EndpointView.ViewIsUnique | src-tauri/src/peer.rs:237-311 | That description determines the view, so the iteration order of the hash maps has no influence |
| EndpointView.ViewReachability | src-tauri/src/peer.rs:283-306 | An endpoint is shown reachable if and only if a source says so or it was before, and unreachable if and only if it was, no source says otherwise, and it was not seen since |
| EndpointView.ViewIsBest | src-tauri/src/peer.rs:268-290 | The class shown is the best any source reports, the source shown reports it latest and is the least on a tie, and the time is the newest |
| EndpointView.Summarize | src-tauri/src/peer.rs:268-306 | The best and the newest observation are found in any order of the observations |
| EndpointView.OneSidedIsEquality | src-tauri/src/peer.rs:771-786 | With unique addresses per source the one-sided comparison says that each side covers the other |
| PeerRegistry.SourcesComparedBothWays | src-tauri/src/peer.rs:771-786 | In the registry addresses are unique per source, so its comparison of all sources holds exactly if both name the same sources and each side covers the other |
| EndpointView.OneSidedNeedsUniqueness | src-tauri/src/peer.rs:771-786 | Without unique addresses it does not |
| PeerRegistry.VisiblyTheSame | src-tauri/src/peer.rs:760-769 | Two views look the same exactly if they are the same list of endpoints but for the times |
| PeerRegistry.PeerRegistry.ApplyObservationChange | src-tauri/src/peer.rs:471-603 | Keeps the registry invariant; a refused report changes nothing; an accepted one is applied to its own peer only, refreshing name, system and version unless it is old or the identity is authenticated; the effect is visible exactly if something other than times differs, and nothing exactly if the records are the same |
| PeerRegistry.PeerRegistry.ApplyObservationVisible | src-tauri/src/peer.rs:464-469 | True exactly if something other than times differs; false means the snapshots sent to the frontend are unchanged |
| PeerRegistry.PeerRegistry.ApplyToPeer | src-tauri/src/peer.rs:545-578 | A report replaces its source's items unless it is older; the peer keeps at least one endpoint |
| PeerRegistry.MergeReports | src-tauri/src/peer.rs:551-575 | Each reported address is kept once, as its first newest report has it, in whatever order |
| PeerRegistry.NewestReportIsNewest | src-tauri/src/peer.rs:551-571 | The report kept is the first among the newest of its address |
| PeerRegistry.TakenReported | src-tauri/src/peer.rs:498-504 | Only endpoints with a usable address are taken from a report, in its order, and all of them up to 32 |
| PeerRegistry.ReplacesUnlessOlder | src-tauri/src/peer.rs:545-550 | A report replaces what its source said exactly unless some of that is newer than all of the report |
| PeerRegistry.OnlineMeans | src-tauri/src/peer.rs:215-219 | A peer is shown online exactly as long as one of its endpoints is not known to fail |
| PeerRegistry.PeerRegistry.RecordRouteSuccess | src-tauri/src/peer.rs:605-626 | True exactly if the peer is known and lists the address; then that endpoint is reachable, the success is noted with its class and time, and nothing else changes |
| PeerRegistry.PeerRegistry.RecordRouteFailure | src-tauri/src/peer.rs:651-681 | True exactly if the peer is known and lists the address; then that endpoint is unreachable, the failure stands before the older ones, of which at most eight in all are kept, and nothing else changes |
| PeerRegistry.PeerRegistry.RecordAuthenticatedIdentity | src-tauri/src/peer.rs:628-649 | Binds the identity and its key exactly if the peer is known and the fingerprint is valid, changes no other peer, and is true exactly if the registry changed |
| PeerRegistry.PeerRegistry.Remove | src-tauri/src/peer.rs:683-753 | After removing a source, a discovery method, or what that has not seen of late, an observation is seen exactly if it was and is not of those; exactly the peers of which one remains stay, with the view rebuilt from it and the earlier reachability; true exactly if the registry changed |
| PeerRegistry.KeptIsWhatSurvives | src-tauri/src/peer.rs:683-753 | What the removals keep of a peer is exactly what survives, under its own source |
| PeerRegistry.EmptyTogether | src-tauri/src/peer.rs:588-594 | A peer has endpoints exactly as long as something observes it, so the empty-endpoints branch is unreachable |
| AppState.InstallExcludesActivity | src-tauri/src/models.rs:739-806 | In every interleaving the updater-installing flag is never set while a transfer is active or a counted connection is open |
| AppState.FirstShutdownEndsTransfers | src-tauri/src/models.rs:822-848 | A shutdown call that found the flag unset and has returned leaves no active transfer, at its return and in every continuation, whatever other threads did meanwhile |
| AppState.ShutdownReturnsAtOnce | src-tauri/src/models.rs:822-825 | In every reachable state the flag decides: found set, the call returns at once and touches nothing, so that a transfer it leaves behind is one the first call has yet to clear; found unset, it goes on to set it |
| AppState.NoTransferAfterShutdown | src-tauri/src/models.rs:822-848 | Once a shutdown call that found the flag unset has emptied the slot, no continuation has an active transfer |
| AppState.ReturningShutdownHasCleared | src-tauri/src/models.rs:822-848 | Such a call has emptied the slot before its last step |
| AppState.LaterShutdownMayReturnEarly | src-tauri/src/models.rs:822-825 | A later shutdown call may return while a transfer is still active |
| AppState.SlotIsNotStolen | src-tauri/src/models.rs:762-773 | The slot is emptied only by finishing its own transfer or by shutdown |
| AppState.FinishFreesTheSlot | src-tauri/src/models.rs:762-773 | The store of a finishing transfer frees the slot it holds and leaves any other value alone |
| AppState.SlotIsReused | src-tauri/src/models.rs:739-773 | From every reachable state with free locks and no shutdown: a transfer that finishes makes room, and the next one to begin holds the slot |
| AppState.InstallingEnds | src-tauri/src/models.rs:790-806 | From every reachable state with nothing active or counted: the updater installs, no transfer begins meanwhile, and after its end one does |
| AppState.UndisturbedBegin | src-tauri/src/models.rs:739-760 | An undisturbed call takes the slot exactly if it is free and nothing is installing or shutting down, and otherwise changes nothing |
| AppState.UndisturbedInstall | src-tauri/src/models.rs:790-801 | An undisturbed call installs exactly if nothing is active, counted or shutting down |
| AppState.UndisturbedConnection | src-tauri/src/models.rs:779-788 | An undisturbed connection is counted exactly if nothing is installing or shutting down, and its guard gives the count back |
| AppState.StepKeepsInvariant | src-tauri/src/models.rs:739-848 | Every step of any thread keeps mutual exclusion, what each thread has established inside its critical section, and the count of connections |
| AppState.ActKeepsOthers | src-tauri/src/models.rs:739-806 | What a thread knows inside its critical section survives every step of another thread |
| CancellationToken.NoLostWakeUp | src-tauri/src/models.rs:483-508 | With any number of cancellers and waiters: after a cancel call is over no waiter sleeps un-notified, and a waiter returns only if the flag is set |
| CancellationToken.CancelledWaiterReturns | src-tauri/src/models.rs:487-508 | After a finished cancel call a waiter has returned as soon as it took three steps, whatever others do |
| CancellationToken.UncancelledWaiterSleeps | src-tauri/src/models.rs:492-508 | With the flag unset a waiter comes to sleep, registered and not woken |
| SemVer.CompareVersions | src/lib/updater-core.ts:123-128 | Gives a sign exactly if both texts are versions, and then the sign of their precedence |
| SemVer.CompareParsedVersions | src/lib/updater-core.ts:100-120 | The loops of the source compute the precedence of section 11 of Semantic Versioning 2.0.0 |
| SemVer.ComparePrereleaseFields | src/lib/updater-core.ts:107-119 | The index loop over prerelease fields computes their lexicographic order |
| SemVer.PrecedenceIsTotalPreorder | src/lib/updater-core.ts:100-128 | The sign flips with the arguments, is transitive, and is zero exactly for versions equal but for build metadata |
| SemVer.NumbersDecide | src/lib/updater-core.ts:100-104 | Major, minor and patch decide first, each by its number |
| SemVer.PrereleaseComesFirst | src/lib/updater-core.ts:105-106 | A prerelease comes before its release |
| SemVer.PrereleaseFieldsDecide | src/lib/updater-core.ts:107-119 | Between two prereleases of one release the first different fields decide, numbers by value and before words, words by their text; if there is none the shorter list comes first |
| SemVer.PatternPieces | src/lib/updater-core.ts:5-6 | The identifier characters and the numerals are those of the pattern |
| SemVer.NumeralsByValue | src/lib/updater-core.ts:94-98 | Comparing numerals by length, then by text, agrees with their numeric value |
| SemVer.LeadingZerosDisagree | src/lib/updater-core.ts:83-85 | With leading zeros it would not |
| SemVer.ParseFormat | src/lib/updater-core.ts:76-90 | Every valid version is read back from its text, with or without the leading letter and build metadata |
| SemVer.ParsedIsFormatted | src/lib/updater-core.ts:5-6 | Every accepted text is the text of the version it is read as |

## Left out

- Noise, X25519 and SHA-256: records arrive as written and the digest is an arbitrary function.
- The JSON form of control messages: a control payload is opaque below and a message above; version
  wording inside a remote protocol error, which selects another error, is not modelled.
- Sockets, timers and the async scheduler: every outcome of a `select!` may occur; what a dropped read
  future has already consumed is not modelled, frame reads are atomic.
- Unicode normalization and case folding: names are taken after normalization, path keys are an
  arbitrary function, and snapshots are compared as a map, without the order by lower-cased name.
- Existence tests that follow dangling links or ignore case: a path exists if the folder has the name.
- The discovery workers, connectivity handshakes, identity and settings files: they appear as reports
  to the registry, as outcomes of connecting, or not at all.
- `prepare_files` and the hashing of sources: a prepared batch is any list of files.
- Trust decisions, pending requests and the cancellation table of the application state: outcomes of
  steps, without their maps.
- `UpdaterController`, release notes and update metadata: only versions are modelled.
- Diagnostics snapshots, redaction, error texts and the user interface.
- AppState.StepKeepsInvariant: the shared state is a value stepped by threads rather than an object
  with locks, so memory orderings weaker than sequential consistency are not captured.
- PeerRegistry.PeerRegistry.Remove: peers are values in a map the methods reassign, so updates through
  shared references to one peer are not captured; the three removal methods are one with a parameter.
- IncomingEngine.IncomingEngine.HandleIncoming: the handshake before the first frame is not part of it.
- RouteRace.Connector.Connect: connection attempts are completions of any kind in any order; what
  happens inside one is not modelled, and its record with the peer is the list of failures.
