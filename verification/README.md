# Verification of Yisync

A Dafny model of the parts of Yisync that carry its guarantees, with proofs of those guarantees.

- **CRC-32C** (`Crc32c*.dfy`): the register bit by bit, as in section 12.1 of RFC 3720, and the portable and SSE4.2 engines
  with all their literal tables, proved equal to it. A table entry means "carry this byte or nibble over so many zero bytes";
  the proofs use linearity over XOR. `Checksums.dfy` is the checksum that travels with payloads.
- **Codec and framing** (`Wire.dfy`, `Messages.dfy`, `Codec.dfy`, `Frames.dfy`, `FrameBytes.dfy`): the byte writer and reader,
  the ten messages, the frame, and reassembly from arbitrary reads. Encoding and parsing are separate definitions, proved to
  undo each other; the methods that write and read field by field are proved against them.
- **Scheduler** (`TokenBucket.dfy`, `Scheduler.dfy`, `SchedulerRuns.dfy`, `MultiLineScheduler.dfy`): each operation as a
  function on values and as a method with the source's loops; conservation and rate over every run.
- **Disk writer** (`DiskWriter.dfy`): each load and store of the two threads is one step; every interleaving is a run.
- **Chunked transfer** (`ChunkResend.dfy`, `SenderChunks.dfy`, `MissingRanges.dfy`, `ChunkStream.dfy`, `ChunkFiles.dfy`,
  `ChunkedReceiver.dfy`, `CommitCoordinator.dfy`, `ChunkContents.dfy`, `ChunkTransfer.dfy`, `Heartbeats.dfy`,
  `ChunkProtocol.dfy`, `ChunkDelivery.dfy`, `ChunkLiveness.dfy`): sender state, receiver state, temp files, commit ownership,
  heartbeat batching, one file from FILE_BEGIN to its name, and the protocol between the two sides over a set of sent messages
  from which any may arrive at any time, or never.
- **Append transfer** (`AppendStream.dfy`, `AppendDurability.dfy`, `AppendProtocol.dfy`, `AppendCompletion.dfy`,
  `LateMessages.dfy`, `AppendLiveness.dfy`, `SendBuffer.dfy`, `NackLookup.dfy`): CREATE and DATA, what is reported as durable
  and when it can be relied on, the buffer of unacknowledged sends, and what a NACK finds in it. `ReceiverChecks.dfy` spells
  out which messages the two receivers take.
- **Manifests** (`ManifestSync.dfy`, `ScanOrder.dfy`, `SendPlan.dfy`, `DirectoryScans.dfy`, `Convergence.dfy`): scan order,
  difference, plan, and one whole round.

Where the source changes state, a class has its fields and its methods are proved against functions on values; the lemmas
about whole runs are about those functions. The file system, the clock, and the answers of queues and lines are parameters of
the operations. Throwing is an `Option`, a `Parsed` or a flag.

Results that differ from what one might expect of the source:

- A frame whose header and body together reach 2^32 bytes is refused by its own decoder (`Frames.DecodeEncoded`), for example
  that of a DATA with 2^32 - 1 payload bytes (`Frames.LargestPayloadIsLost`).
- Frames that arrive in the same call of `read_available` as the peer's close are not delivered (`Frames.ReadsDeliver`).
- `stop()` of the disk writer can return with an accepted task never run (`DiskWriter.StopCanLoseATask`);
  `DiskWriter.StopRunsAll` gives the exact condition, and `DiskWriter.DrainThenStop` what a caller can do about it.
- A requested chunk order that repeats an index is accepted and leaves a chunk unsent (`ChunkResendSpec.NeverStallsIf`,
  `ChunkResendSpec.RepeatedRequestSkipsAChunk`). Both callers pass an empty request (src/sender/yisync_sender_app.cpp:132-138
  and 235-240), so it does not arise from them.
- A FILE_BEGIN whose chunk count or chunk length does not fit its integer type is accepted, and then the temp file falls short
  (`ChunkFiles.CommittedFile` says exactly when, `ChunkFiles.WrappedCountCommitsNothing` and
  `ChunkFiles.CutLengthCommitsNothing` show it). The commit task refuses such a file when the announced checksum covers the
  source (`ChunkTransfer.ShortFileIsRefused`); one announced without a checksum is committed.
- The scheduler releases DATA with no end offset that the send buffer keeps (`SendBuffer.ReleasedIsErased`,
  `SendBuffer.ZeroEndIsKept`). The sender sets the end of every DATA to its offset plus a positive length
  (src/sender/yisync_sender_app.cpp:878-896), so it does not arise there.
- A late copy of a DATA of an earlier entry resets what the coordinator takes for durable, and the next heartbeat reports the
  copy's offset for the current file: the sender can count bytes as delivered that never arrived, and has nothing left to send
  (`LateMessages.LateDataMisleads`). A late fsync of an earlier file does the same (`LateMessages.LateFsyncMisleads`).
  `AppendCompletion.BoundedKept` says exactly which steps do; completion itself is not affected, since it asks for next_seq
  (`AppendProtocol.CompletionIsReal`).
- A repeated CREATE reports the received length as durable, so an entry can complete at the sender before any fsync
  (`LateMessages.LateCreateCompletes`; `AppendCompletion.VouchedKept` has the exact steps,
  `AppendCompletion.CompletionIsDurable` what holds without them).
- A NACK for the checksum or the offset of a DATA makes the sender send the CREATE again while that is still buffered, and no
  heartbeat removes it before next_seq passes the file (`NackLookup.CreateStaysBuffered`, `NackLookup.NackMissesTheSegment`; `NackLookup.RefusedDataIsFound` has
  the exact condition). The DATA goes out again when its timeout has passed.
- Two files of the same size that differ only in front of their last 4 MiB count as in sync (`ManifestSync.UnseenDifference`;
  `ManifestSync.SameRange` and `ManifestSync.InSyncMeans` say exactly what is compared).
- The send loop ends whatever the retransmission timeout is: a chunk just sent has no priority.

## Model

| member | source | states |
|---|---|---|
| Crc32c.ExtendConcat | crc32c/src/crc32c_portable.cc:247-349 | Extending by `a` and then by `b` is extending by `a + b`, for every seed and buffer of the bit-by-bit register |
| Crc32cPowers.ThirtyTwoZeroBytes | crc32c/src/crc32c_portable.cc:247-349 | Thirty-two zero bytes give the check value of RFC 3720, appendix B.4 |
| Crc32cTableProofs.ByteTableSkips | crc32c/src/crc32c_portable.cc:16-59 | Each of the 256 byte-table entries is the register of its index after one zero byte |
| Crc32cTableProofs.StrideTablesSkip | crc32c/src/crc32c_portable.cc:61-239 | Each entry of the four stride tables is its byte, at its position in the word, carried over 16 zero bytes |
| Crc32cTableProofs.SkipTablesSkip | crc32c/src/crc32c_sse42.cc:39-116 | Each entry of the three skip tables is its nibble carried over one block (5440, 1360 and 336 bytes) |
| Crc32cSteps.Step1 | crc32c/src/crc32c_portable.cc:253-257 | One table step consumes one byte |
| Crc32cSteps.Step4 | crc32c/src/crc32c_portable.cc:260-266 | One stride step carries a lane over 16 bytes and takes in a word |
| Crc32cSteps.Step4W | crc32c/src/crc32c_portable.cc:279-286 | Four table steps carry a lane over its word |
| Crc32cSteps.SkipBlock | crc32c/src/crc32c_sse42.cc:159-165 | Eight nibble look-ups give the XOR of the rows of one table that the register's nibbles select; that this carries the register over the table's block of zeros is SkipTablesSkip |
| Crc32cEngines.StrideFeeds | crc32c/src/crc32c_portable.cc:260-276 | Four lanes that each step over their word stand for one register fed 16 bytes |
| Crc32cEngines.RotationFeeds | crc32c/src/crc32c_portable.cc:321-330 | The single-word loop, which rotates the lanes, feeds four bytes |
| Crc32cEngines.MergeLanes | crc32c/src/crc32c_portable.cc:332-337 | Merging the four lanes gives the register of all bytes so far |
| Crc32cEngines.Strides | crc32c/src/crc32c_portable.cc:298-338 | The whole strided part, for any length and start, equals feeding its bytes one by one |
| Crc32cEngines.ExtendPortable | crc32c/src/crc32c_portable.cc:247-349 | For every seed, buffer and alignment the result is the bit-by-bit CRC-32C |
| Crc32cEngines.MergeBlocks | crc32c/src/crc32c_sse42.cc:202-206 | Three lanes, two of them started at zero, merged by skipping twice, equal the three blocks in sequence |
| Crc32cEngines.LargeBlocks | crc32c/src/crc32c_sse42.cc:181-207 | Every 3 x 5440 byte group equals its bytes in sequence |
| Crc32cEngines.SmallBlocks | crc32c/src/crc32c_sse42.cc:208-231 | The same for the two smaller block sizes |
| Crc32cEngines.StepDoubles | crc32c/src/crc32c_sse42.cc:234-238 | The 16-byte loop equals its bytes in sequence |
| Crc32cEngines.ExtendSse42 | crc32c/src/crc32c_sse42.cc:122-252 | For every seed, buffer and alignment the result is the same CRC-32C |
| Wire.ValOfLE | src/core/yisync_protocol.cpp:21-36 | A number written in k bytes, low byte first, reads back |
| Wire.LEOfVal | src/core/yisync_protocol.cpp:67-92 | Any k bytes are the encoding of the number they read as |
| Wire.Writer.Number | src/core/yisync_protocol.cpp:21-36 | The shift loop appends exactly the k low bytes, low end first |
| Wire.Writer.String | src/core/yisync_protocol.cpp:38-48 | A length and then the bytes are appended, nothing else changes |
| Wire.Reader.Number | src/core/yisync_protocol.cpp:60-92 | Reads the number at the position and moves past it, or fails and stays |
| Wire.Reader.String | src/core/yisync_protocol.cpp:94-112 | Reads a counted string or fails when the count or the bytes are cut off |
| Wire.Reader.Done | src/core/yisync_protocol.cpp:114-118 | True exactly when nothing is left |
| Codec.EncodeBody | src/core/yisync_protocol.cpp:238-386 | Writing a message field by field, lists by loop, gives its encoding |
| Codec.DecodeBody | src/core/yisync_protocol.cpp:388-551 | Reading field by field, lists by loop, is parsing, and left-over bytes are refused |
| Codec.WriteHeartbeat | src/core/yisync_protocol.cpp:355-372 | The writer appends exactly the encoding of a HEARTBEAT with both lists |
| Codec.ReadHeartbeat | src/core/yisync_protocol.cpp:518-537 | The reader takes exactly what the parser takes, or gives up |
| Codec.WriteData | src/core/yisync_protocol.cpp:299-313 | The writer appends exactly the encoding of a DATA, with the payload length in between |
| Codec.ReadData | src/core/yisync_protocol.cpp:456-473 | The reader takes exactly what the parser takes, and a wrong payload length is refused |
| Wire.ListReads | src/core/yisync_protocol.cpp:238-386 | A counted list of items that read back reads back |
| Wire.ListExact | src/core/yisync_protocol.cpp:388-551 | A counted list that is accepted is exactly what would be written |
| Messages.BodyReads | src/core/yisync_protocol.cpp:238-551 | For all ten message types, decoding an encoded body gives the message and leaves what follows |
| Messages.BodyExact | src/core/yisync_protocol.cpp:388-551 | Any accepted body is byte for byte the encoding of the message it decodes to, and of that type |
| Frames.EncodeFrameBytes | src/core/yisync_protocol.cpp:641-648 | Header and body are written as the frame of the message |
| Frames.DecodeFrameBytes | src/core/yisync_protocol.cpp:650-667 | Exactly the frames that the parser accepts are read |
| Frames.DecodeBytes | src/core/yisync_protocol.cpp:594-639 | The whole decoder, None for each exception |
| Frames.DecodeFraming | src/core/yisync_protocol.cpp:650-667 | decode_frame accepts a header and body exactly when the header length is 12 and the wrapping 32-bit sum is the size |
| Frames.DecodeEncoded | src/core/yisync_protocol.cpp:569-667 | A message decodes back to itself if and only if header and body stay below 2^32 bytes; otherwise its frame is refused |
| Frames.LargestPayloadIsLost | src/core/yisync_protocol.cpp:569-667 | The failing inputs exist: a DATA of 2^32 - 1 payload bytes encodes to a frame that decodes to nothing |
| Frames.EncodeDecoded | src/core/yisync_protocol.cpp:594-667 | Every accepted frame re-encodes to the identical bytes |
| FrameBytes.HeaderBytes | include/core/yisync_protocol.hpp:14-117 | Every frame begins with the bytes 59 53 49 59, version 1, the type's code from 1 to 10, a header length of 12 and the body length, low byte first, and its body follows |
| FrameBytes.CommitFrame | src/core/yisync_protocol.cpp:347-353 | The whole frame of FILE_COMMIT of stream 1, seq 2 and file 3, byte by byte |
| Frames.AsyncFrameConnection.ParseFrames | src/network/yisync_async.cpp:375-406 | The loop delivers exactly the frames at the front of the buffer and keeps the rest, or closes |
| Frames.AsyncFrameConnection.ReadAvailable | src/network/yisync_async.cpp:316-338 | Everything that recv returns joins the buffer; then whole frames leave it when recv would block, and the connection closes without parsing when the peer has closed or recv fails |
| Frames.SegmentsDoNotMatter | src/network/yisync_async.cpp:316-406 | However arbitrary bytes are cut into reads, the outcome is that of one read |
| Frames.DeliveredAreExact | src/network/yisync_async.cpp:375-406 | For arbitrary bytes, those used up are the encodings of the delivered messages, each within the limit |
| Frames.FramesAreDelivered | src/network/yisync_async.cpp:375-406 | Whole frames within the limit are delivered in order and parsing goes on behind them |
| Frames.StreamIsReassembled | src/network/yisync_async.cpp:375-406 | Frames cut anywhere, the last one possibly incomplete, give exactly their messages and keep the proper prefix of the next |
| Frames.ReadsDeliver | src/network/yisync_async.cpp:316-338 | Over any number of calls of read_available the messages come out in order; a call in which the peer closes delivers nothing of what it read, not even a frame it completed |
| Frames.WrappedLengthFails | src/network/yisync_async.cpp:379-387 | A header length plus body length that wraps 32 bits never yields a message |
| DiskWriter.NextSafe | src/receiver/yisync_disk_writer.cpp:18-86 | Every step of either thread keeps the ring invariant |
| DiskWriter.TasksRunInOrder | src/receiver/yisync_disk_writer.cpp:18-86 | Under every interleaving tasks run in the order accepted, each at most once, and at most 128 wait; when a task is accepted is EnqueueAccepts, and that it is run WorkerGetsThere |
| DiskWriter.EnqueueAccepts | src/receiver/yisync_disk_writer.cpp:22-30 | In every run, when enqueue looks at head it goes on if and only if fewer than 128 accepted tasks are in the ring; then two more steps of its own, whatever the worker does in between, accept the task behind all others |
| DiskWriter.EnqueueStarts | src/receiver/yisync_disk_writer.cpp:18-22 | A call of enqueue reads tail first, and is refused at once behind stop() |
| DiskWriter.WorkerGetsThere | src/receiver/yisync_disk_writer.cpp:58-86 | While stop() was not called, a waiting task is run within nine steps of the worker |
| DiskWriter.SlotsAreExclusive | src/receiver/yisync_disk_writer.cpp:24-28 | The producer writes a slot only when no waiting task is in it and the worker is not at it |
| DiskWriter.DrainWaitsForAll | src/receiver/yisync_disk_writer.cpp:32-37 | drain returns only after every accepted task has run |
| DiskWriter.DrainReturns | src/receiver/yisync_disk_writer.cpp:32-37 | When everything has run and the worker is idle, drain returns |
| DiskWriter.StopReturns | src/receiver/yisync_disk_writer.cpp:47-67 | Behind stop(), with an empty ring, the worker ends within five steps and stop returns |
| DiskWriter.StopRunsAll | src/receiver/yisync_disk_writer.cpp:47-67 | stop runs every accepted task if and only if, when it sets the flag, the worker is not between seeing an empty ring and reading the flag while a task waits |
| DiskWriter.StopCanLoseATask | src/receiver/yisync_disk_writer.cpp:61-67 | A concrete run in which stop returns and an accepted task never runs |
| DiskWriter.DrainThenStop | src/receiver/yisync_disk_writer.cpp:32-52 | When drain has returned and nothing was enqueued since, every accepted task has run whatever the interleaving up to the end of stop |
| TokenBuckets.TokenBucket.RefillTicks | src/network/yisync_scheduler.cpp:35-43 | The saturating 64-bit refill is min(capacity, tokens + ticks * rate) over the integers |
| TokenBuckets.TokenBucket.TryConsume | src/network/yisync_scheduler.cpp:45-55 | Takes the bytes exactly when they are there |
| TokenBuckets.ProductFits | src/network/yisync_scheduler.cpp:39-41 | The division test is exactly the overflow test |
| SchedulerSpec.Best | src/network/yisync_scheduler.cpp:102-128 | The selected line is the first of those with the highest score, or none can carry the request |
| SchedulerSpec.Find | src/network/yisync_scheduler.cpp:337-349 | The first line with the id, or no line has it |
| SchedulerRuns.ScorePrefers | src/network/yisync_scheduler.cpp:351-361 | When its sums fit 64 bits, a line no worse in any respect scores no lower |
| SchedulerRuns.ScoreOverIntegers | src/network/yisync_scheduler.cpp:351-361 | And the score is then headroom of window and bucket and at most 2^20 completed bytes, less 2^20 for each of at most 16 failures, half of what is in flight and 1024 for each missed tick, or 1 |
| SchedulerRuns.GrantStaysInWindow | src/network/yisync_scheduler.cpp:97-151 | A grant goes to a usable line, takes exactly its bytes, stays within the window and touches no other line; a refusal means no line could carry it |
| SchedulerRuns.SelectSplits | src/network/yisync_scheduler.cpp:237-265 | A heartbeat splits pending sends, and their bytes, into completed and kept without loss |
| SchedulerRuns.HeartbeatReleases | src/network/yisync_scheduler.cpp:222-274 | A heartbeat on a line releases exactly: the CHUNK sends that it lists by file, seq and index; the CREATE, FILE_BEGIN and FILE_COMMIT sends of its stream and file below next_seq; the DATA sends of its stream and file that next_seq passes or whose end it reaches. The others stay in order, each as often as before, the bytes in flight are theirs, and no other line changes |
| SchedulerRuns.SchedulerConserves | src/network/yisync_scheduler.cpp:97-151 | In every run in-flight bytes are the sum of pending bytes, and each grant is exactly one of pending, completed, waiting as lost, or handed out |
| SchedulerRuns.RateIsBounded | src/network/yisync_scheduler.cpp:35-55 | Between any two moments of a run the bytes granted on a line are at most capacity + ticks * rate |
| SchedulerRuns.ConfiguredRateIsBounded | src/network/yisync_scheduler.cpp:57-79 | From the configured state on, in every run each line has been granted at most its capacity plus the ticks' worth of its rate |
| MultiLineScheduler.T_MultiLineScheduler.Configure | src/network/yisync_scheduler.cpp:10-79 | Made exactly for configurations with distinct non-zero ids, positive ticks and positive limits, with full buckets and the initial windows; refused otherwise |
| MultiLineScheduler.T_MultiLineScheduler.RefillTicks | src/network/yisync_scheduler.cpp:81-95 | The loop refills every line and marks the stale ones |
| MultiLineScheduler.T_MultiLineScheduler.ChooseLine | src/network/yisync_scheduler.cpp:102-128 | The selection loop finds the best line |
| MultiLineScheduler.T_MultiLineScheduler.TryAcquire | src/network/yisync_scheduler.cpp:97-151 | The whole new state and the grant |
| MultiLineScheduler.T_MultiLineScheduler.ClearInflight | src/network/yisync_scheduler.cpp:363-380 | All pending sends of the line become lost sends, in order |
| MultiLineScheduler.T_MultiLineScheduler.IsCompleted | src/network/yisync_scheduler.cpp:229-258 | The loop over received chunks and the tests by kind decide what is completed |
| MultiLineScheduler.T_MultiLineScheduler.OnClearingEvent | src/network/yisync_scheduler.cpp:153-220 | The five events that give up a line, or the failure for an unknown one |
| MultiLineScheduler.T_MultiLineScheduler.OnLineNegotiated | src/network/yisync_scheduler.cpp:168-183 | The new line state; pending sends stay |
| MultiLineScheduler.T_MultiLineScheduler.RemoveCompleted | src/network/yisync_scheduler.cpp:237-265 | The removal loop keeps what is not completed, in order, and sums what is; which sends those are is HeartbeatReleases |
| MultiLineScheduler.T_MultiLineScheduler.OnHeartbeat | src/network/yisync_scheduler.cpp:222-274 | The whole new state after a heartbeat, of which HeartbeatReleases says what left |
| MultiLineScheduler.T_MultiLineScheduler.TakeLostSends | src/network/yisync_scheduler.cpp:331-335 | Hands out the lost sends once |
| ChunkResendSpec.FirstSendable | src/sender/yisync_chunk_resend.cpp:86-101 | The first sendable chunk of the list, or none is sendable |
| ChunkResendSpec.StaysSettled | src/sender/yisync_chunk_resend.cpp:31-183 | Acknowledged implies sent and not priority, through every operation |
| ChunkResendSpec.AcksStay | src/sender/yisync_chunk_resend.cpp:103-183 | An acknowledgement is never taken back within a file |
| ChunkResendSpec.ExhaustedMeans | src/sender/yisync_chunk_resend.cpp:9-29 | Nothing is left to send exactly when every un-acknowledged chunk of the order is sent and none with priority is unsent or past its timeout |
| ChunkResendSpec.UrgentGoesFirst | src/sender/yisync_chunk_resend.cpp:86-101 | When something is left to send: the lowest chunk with priority that was never sent or is past its timeout; without one, the first of the order neither acknowledged nor sent |
| ChunkResendSpec.CoversMeansDistinct | src/sender/yisync_chunk_resend.cpp:31-50 | n numbers below n are all of them if and only if none repeats |
| ChunkResendSpec.OrderCovers | src/sender/yisync_chunk_resend.cpp:31-50 | The order names every chunk if and only if the number of valid indices in the request is not the number of chunks, or no valid index repeats |
| ChunkResendSpec.NeverStallsIf | src/sender/yisync_chunk_resend.cpp:9-148 | Over every run of sends, acknowledgements, losses, hints and resets and at every tick and timeout: nothing left to send implies that every un-acknowledged chunk is sent, if and only if the request meets that condition |
| ChunkResendSpec.RepeatedRequestSkipsAChunk | src/sender/yisync_chunk_resend.cpp:37-42 | The request [0, 0] for two chunks leaves chunk 1 unsent at every tick and timeout behind the send of chunk 0 |
| ChunkResendSpec.SendingUsesUp | src/sender/yisync_chunk_resend.cpp:103-122 | Each send lowers the number of sendable chunks by one |
| ChunkResendSpec.LoopSends | src/sender/yisync_sender_app.cpp:1232-1279 | One pass sends each chunk at most once, only sendable ones, acknowledges nothing and leaves the others as they are |
| ChunkResendSpec.PassSendsTheOrder | src/sender/yisync_sender_app.cpp:1232-1279 | A pass over a fresh state with every send accepted sends exactly the order |
| ChunkResendSpec.FreshPass | src/sender/yisync_chunk_resend.cpp:43-50 | Without a request that is n-1, 0, 1, ..., n-2, each once |
| SenderChunks.T_ChunkResendState.BuildOrder | src/sender/yisync_chunk_resend.cpp:31-50 | The filter and default loops compute the order |
| SenderChunks.T_ChunkResendState.Initialize | src/sender/yisync_chunk_resend.cpp:31-57 | The whole new state |
| SenderChunks.T_ChunkResendState.Reset | src/sender/yisync_chunk_resend.cpp:59-66 | The whole new state; order and count stay |
| SenderChunks.T_ChunkResendState.AllAcked | src/sender/yisync_chunk_resend.cpp:68-72 | True exactly when every chunk is acknowledged |
| SenderChunks.T_ChunkResendState.NextChunkToSend | src/sender/yisync_chunk_resend.cpp:86-101 | The two search loops find priority chunks first, then the order |
| SenderChunks.T_ChunkResendState.MarkChunkSent | src/sender/yisync_chunk_resend.cpp:103-122 | The whole new state and the mark |
| SenderChunks.T_ChunkResendState.AcknowledgeChunk | src/sender/yisync_chunk_resend.cpp:124-134 | The whole new state |
| SenderChunks.T_ChunkResendState.MarkChunkLost | src/sender/yisync_chunk_resend.cpp:136-148 | Only a sent, un-acknowledged chunk gains priority |
| SenderChunks.T_ChunkResendState.ApplyMissingHints | src/sender/yisync_chunk_resend.cpp:150-183 | Priority rises on exactly the un-acknowledged chunks the hints reach; every raise is covered by a reported range |
| SenderChunks.T_ChunkResendState.SendChunks | src/sender/yisync_sender_app.cpp:1232-1284 | The send loop ends, with the number of sendable chunks as its measure, in the state, log and reason of its specification |
| MissingRanges.MissingRangesOf | src/receiver/yisync_receiver.cpp:671-715 | Lists in order the first max maximal runs of unreceived chunks below the highest received one |
| MissingRanges.HintsRaiseTheGaps | src/sender/yisync_chunk_resend.cpp:150-183 | Fed back to the sender, the list raises exactly the un-acknowledged chunks in those runs |
| ChunkFiles.StartsInside | src/receiver/yisync_receiver.cpp:811-819 | The offset of a chunk below the count never wraps, even when the count did |
| ChunkFiles.StoreSound | src/receiver/yisync_receiver.cpp:838-852 | A write, whole or torn, keeps every received chunk where it belongs and received_count the number of set bits |
| ChunkFiles.NextSound | src/receiver/yisync_receiver.cpp:575-853 | Every operation keeps every active file sound |
| ChunkFiles.CommittedFile | src/receiver/yisync_receiver.cpp:575-607 | When a commit may start, the temp file is the in-order concatenation of one accepted payload per chunk with the announced size, if and only if size + chunk_size - 1 fits 64 bits and min(size, chunk_size) fits 32 |
| ChunkFiles.WrappedCountCommitsNothing | src/receiver/yisync_receiver.cpp:717-788 | The failing inputs exist: a FILE_BEGIN of size 2^64 - 1 and chunk size 2^63 has chunk count 0, and its commit may start at once with an empty temp file |
| ChunkFiles.CutLengthCommitsNothing | src/receiver/yisync_receiver.cpp:811-819 | So does one of size 2^33 and chunk size 2^32, whose two chunks have length 0 |
| ChunkFiles.CommittedFileOfAnyRun | src/receiver/yisync_receiver.cpp:575-853 | The same after every run from an empty stream |
| ChunkFiles.PendingFileIsFixed | src/receiver/yisync_receiver.cpp:790-853 | While a commit is pending nothing changes the temp file but the end of the commit |
| ChunkedReceiver.T_ChunkedReceiverStream.OnFileBegin | src/receiver/yisync_receiver.cpp:717-788 | All refusals in order, and the new active file |
| ChunkedReceiver.T_ChunkedReceiverStream.OnChunk | src/receiver/yisync_receiver.cpp:790-853 | Late and repeated chunks, the checks in order, and the write; ReceiverChecks says in full which chunks are written |
| ChunkedReceiver.T_ChunkedReceiverStream.CheckChunk | src/receiver/yisync_receiver.cpp:790-823 | The checks of stream, seq, file, index, offset and length, in order |
| ChunkedReceiver.T_ChunkedReceiverStream.CheckPayload | src/receiver/yisync_receiver.cpp:824-837 | The checks of compression, length, algorithm and CRC-32C, in order |
| ReceiverChecks.ChunkIsStored | src/receiver/yisync_receiver.cpp:790-853 | A CHUNK of an active file of the expected seq, at the place of an index not received yet, with a whole payload of the expected length and its CRC-32C, is written at its offset and marked |
| ReceiverChecks.ChunkIsTorn | src/receiver/yisync_receiver.cpp:838-848 | When the write fails, a part of it may be there, and nothing is marked |
| ReceiverChecks.OtherChunkIsNot | src/receiver/yisync_receiver.cpp:790-853 | Any other CHUNK changes nothing |
| ReceiverChecks.StoredIsWhole | src/receiver/yisync_receiver.cpp:824-837 | Whatever changes the receiver has the CRC-32C of its payload, is not compressed and as long as it says |
| ReceiverChecks.WrongChunkChecksum | src/receiver/yisync_receiver.cpp:834-837 | A CHUNK that only its checksum makes wrong is answered with BAD_CHECKSUM and changes nothing |
| ReceiverChecks.BeginMakesTheFile | src/receiver/yisync_receiver.cpp:717-788 | A FILE_BEGIN makes its active file, empty and with no chunk received, exactly when it has the expected seq, more than 64 KiB, the right chunk count, a complete file before it and a free name; any other changes nothing |
| ReceiverChecks.CommitStarts | src/receiver/yisync_receiver.cpp:575-607 | A commit may start exactly for a complete file of the expected seq with none pending and a free name |
| ReceiverChecks.ChecksumOfZeros | src/core/yisync_protocol.cpp:559-567 | The checksum of 32 zero bytes, low byte first, is AA 36 91 8A |
| ChunkedReceiver.T_ChunkedReceiverStream.PrepareCommit | src/receiver/yisync_receiver.cpp:575-607 | All refusals in order, and the pending flag |
| ChunkedReceiver.T_ChunkedReceiverStream.AbortCommit | src/receiver/yisync_receiver.cpp:609-618 | Only the pending flag of that file changes |
| ChunkedReceiver.T_ChunkedReceiverStream.FinishCommit | src/receiver/yisync_receiver.cpp:620-636 | The file leaves, expected_seq moves past it; or nothing changes where the source throws |
| ChunkedReceiver.T_ChunkedReceiverStream.RefreshCommittedFromDisk | src/receiver/yisync_receiver.cpp:496-506 | expected_seq never goes back |
| ChunkedReceiver.T_ChunkedReceiverStream.MissingOf | src/receiver/yisync_receiver.cpp:671-715 | The gaps of the active file, nothing without one |
| ChunkContents.CompleteIsSource | src/sender/yisync_sender_plan.cpp:181-187 | A file that has all its chunks, each cut from the source as read_chunk_payload does, has the source as its temp file |
| ChunkTransfer.ShortFileIsRefused | src/receiver/yisync_receiver.cpp:638-641 | write_commit_task never gives its name to a temp file shorter than the source whose full checksum was announced |
| ChunkTransfer.CommitChecksTheSource | src/receiver/yisync_receiver.cpp:638-660 | Where the source's checksum was announced, the temp file takes its name if and only if the name is free, the file is at least as long as the source, and its first bytes have the CRC-32C of the source |
| ChunkTransfer.FileArrives | src/receiver/yisync_receiver.cpp:575-853 | FILE_BEGIN, the chunks in any order that covers them, FILE_COMMIT, the commit task and the poll behind it leave the source under its name and expected_seq one further |
| CommitCoordinator.NewContextOwned | src/receiver/yisync_receiver_streams.cpp:77-107 | The context of a new chunk receiver, behind any scan, satisfies the invariant |
| CommitCoordinator.NextOwned | src/receiver/yisync_receiver_coordinator.cpp:190-297 | Every event keeps: a commit is queued exactly when one active file, that seq and file id, is pending |
| CommitCoordinator.CommitsAreOwned | src/receiver/yisync_receiver_coordinator.cpp:444-537 | In every run finish_commit never throws, "commit already pending" is never answered, and a completed task commits exactly the queued file |
| CommitCoordinator.ChunkCommits.OnFileCommit | src/receiver/yisync_receiver_coordinator.cpp:190-297 | The whole new state and what is sent |
| CommitCoordinator.ChunkCommits.Poll | src/receiver/yisync_receiver_coordinator.cpp:444-537 | The whole new state and what is sent |
| Heartbeats.HeartbeatQueue.QueueHeartbeat | src/network/yisync_network.cpp:549-571 | A heartbeat is merged into what its line and stream hold; a full batch sends everything that the line then holds, each heartbeat once, and nothing else changes |
| Heartbeats.HeartbeatQueue.FlushHeartbeats | src/network/yisync_network.cpp:573-589 | Everything the line holds is sent once, the rest stays |
| Heartbeats.HeartbeatQueue.FlushAllHeartbeats | src/network/yisync_network.cpp:591-608 | Everything held is sent once |
| Heartbeats.NothingQueuedIsLost | src/network/yisync_network.cpp:549-571 | Of any sequence of heartbeats queued since the last flush, a line and stream hold the received chunks of all of theirs, in order, none lost and none twice |
| Heartbeats.LastOneCounts | src/network/yisync_network.cpp:549-571 | And everything else of the last one |
| ChunkProtocol.QueueProjects | src/network/yisync_network.cpp:549-589 | What the protocol holds and sends per line is the stream's part of the heartbeat queue, through merging, full batches and flushes |
| ChunkProtocol.HeartbeatAcknowledges | src/sender/yisync_sender_app.cpp:1160-1182 | A heartbeat of the stream acknowledges a chunk if and only if it lists it, or the chunk was acknowledged already; it gives priority exactly to the chunks in its missing ranges that are still not acknowledged |
| ChunkProtocol.BeginIsAnswered | src/receiver/yisync_receiver_coordinator.cpp:123-150 | A FILE_BEGIN that is taken, or was before, is answered at once with what the receiver expects |
| ChunkProtocol.ChunkIsAnswered | src/receiver/yisync_receiver_coordinator.cpp:152-188 | A CHUNK that is stored, or was before, is listed in the heartbeat that its line holds, with the missing ranges, or in the one that leaves when the batch is full; one answered with a Nack is not |
| ChunkProtocol.LateCommitIsAnswered | src/receiver/yisync_receiver_coordinator.cpp:190-225 | A FILE_COMMIT of a file the receiver is past is answered at once with what it expects |
| ChunkProtocol.NextInv | src/sender/yisync_sender_app.cpp:1151-1192 | Every step under loss, repetition and reordering keeps the protocol invariant; what the steps must do is HeartbeatAcknowledges, the Answered lemmas and ChunkLiveness |
| ChunkProtocol.AcknowledgedIsStored | src/receiver/yisync_receiver_coordinator.cpp:152-188 | In every run a chunk the sender holds as acknowledged is received, or its seq is below expected_seq; ChunkLiveness has runs in which all of them are |
| ChunkProtocol.CommitIsNeverEarly | src/sender/yisync_sender_app.cpp:1286-1313 | A FILE_COMMIT sent after all acknowledgements is never refused as early, incomplete, misdirected or already pending |
| ChunkProtocol.CompletionIsReal | src/sender/yisync_sender_app.cpp:1184-1189 | A heartbeat of the stream, from the chunk or from the append receiver, that makes the sender move on means the chunk receiver is past the file |
| ChunkDelivery.NextInv | src/receiver/yisync_receiver_coordinator.cpp:123-297 | Every step keeps: accepted payloads are the source's chunks, and expected_seq passes the task only when its temp file has been renamed with the source in it |
| ChunkDelivery.CompletionMeansDelivered | src/sender/yisync_sender_app.cpp:1184-1189 | A heartbeat that makes the sender move on means that the file committed under the task's name is the source, byte for byte |
| ChunkLiveness.EveryTaskCanCommit | src/sender/yisync_sender_app.cpp:1286-1313 | From every start some run acknowledges every chunk and sends the FILE_COMMIT |
| ChunkLiveness.AwaitedTaskIsDelivered | src/sender/yisync_sender_app.cpp:1151-1192 | When the receiver waits for the task and is busy with no other, some run of the task's own messages, without a scan, acknowledges every chunk, commits the file and tells the sender of the next seq |
| ChunkLiveness.AwaitedSourceArrives | src/sender/yisync_sender_app.cpp:1184-1189 | And in it the source, byte for byte, gets the task's name |
| AppendStreams.T_ReceiverStream.constructor | src/receiver/yisync_receiver.cpp:368-392 | The session state after a scan |
| AppendStreams.T_ReceiverStream.OnCreate | src/receiver/yisync_receiver.cpp:153-275 | All refusals in order, and the new entry |
| AppendStreams.T_ReceiverStream.OnData | src/receiver/yisync_receiver.cpp:277-366 | Stale and resuming DATA, the checks in order, and the append; ReceiverChecks says in full which DATA are appended |
| AppendStreams.T_ReceiverStream.CheckData | src/receiver/yisync_receiver.cpp:289-325 | The checks of seq, file, kind, offset and sizes, in order |
| AppendStreams.T_ReceiverStream.CheckPayload | src/receiver/yisync_receiver.cpp:327-349 | The checks of compression, length, algorithm and CRC-32C, in order |
| ReceiverChecks.DataIsAppended | src/receiver/yisync_receiver.cpp:277-366 | A DATA that continues the current file, with a whole payload of the announced length and its CRC-32C, is appended, and moves the offset and, at the final size, expected_seq |
| ReceiverChecks.DataIsTorn | src/receiver/yisync_receiver.cpp:351-358 | When the write fails, a part of the payload may be there, and the session stays |
| ReceiverChecks.OtherDataIsNot | src/receiver/yisync_receiver.cpp:277-349 | Any other DATA leaves session and directory as they are |
| ReceiverChecks.AppendedIsWhole | src/receiver/yisync_receiver.cpp:327-349 | Whatever changes session or directory has the CRC-32C of its payload, is not compressed and as long as it says |
| ReceiverChecks.WrongDataChecksum | src/receiver/yisync_receiver.cpp:342-349 | A DATA that only its checksum makes wrong is answered with BAD_CHECKSUM and changes nothing |
| ReceiverChecks.CreateMakesTheEntry | src/receiver/yisync_receiver.cpp:153-275 | A CREATE makes its entry exactly when it has the expected seq, a known kind, a safe and free name and a complete file before it; it is passed at once unless bytes are to follow; any other changes nothing |
| AppendProtocol.T_AppendSendState.constructor | src/sender/yisync_append_state.cpp:22-38 | The state of a new plan |
| AppendProtocol.T_AppendSendState.MarkCreateReady | src/sender/yisync_append_state.cpp:53-63 | The whole new state, and whether anything is new |
| AppendProtocol.T_AppendSendState.MarkDataReady | src/sender/yisync_append_state.cpp:65-81 | The whole new state, and whether anything is new |
| AppendProtocol.T_AppendSendState.ResetInflight | src/sender/yisync_append_state.cpp:9-16 | Only what was in flight is forgotten |
| AppendProtocol.NextInv | src/sender/yisync_sender_app.cpp:1121-1148 | Every step under loss, repetition and reordering, with the heartbeats that the coordinator makes, its fsyncs, and those of the chunk receiver, keeps the protocol invariant; DATA of the task in the send buffer is the outstanding segment, which may also have left the buffer |
| AppendProtocol.T_AppendSendState.MarkDataRetransmitted | src/sender/yisync_append_state.cpp:99-108 | The whole new state |
| AppendProtocol.RetransmissionIsIdle | src/sender/yisync_sender_app.cpp:515-577 | In every run, sending anything in the buffer again changes neither the sender's state nor what has been sent, since buffered DATA of the task is the outstanding segment |
| AppendProtocol.ReceiverHoldsAPrefix | src/receiver/yisync_receiver.cpp:277-366 | In every run the file is a prefix of the source, as long as current_offset unless a write was torn |
| AppendProtocol.CompletionIsReal | src/sender/yisync_append_state.cpp:83-92 | Completion at the sender means the receiver holds the whole entry |
| AppendLiveness.EveryFileCanComplete | src/sender/yisync_sender_app.cpp:1121-1148 | For every non-empty file and every segment size some run creates the file, sends it in segments, syncs it, and completes it at the sender, with all of it at the receiver and covered by a finished fsync |
| AppendCompletion.BoundedKept | src/receiver/yisync_receiver_coordinator.cpp:64-121 | A step keeps "what is known and reported as durable is within the offset, and the sender counts no byte that is not there" if and only if it is neither a repeated DATA of another entry with an offset beyond the session's nor a late fsync whose goal is |
| AppendCompletion.SenderNeverOvercounts | src/sender/yisync_append_state.cpp:65-81 | In every run without such a step the sender never counts more than the receiver's file holds |
| AppendCompletion.VouchedKept | src/receiver/yisync_receiver_coordinator.cpp:340-442 | A step keeps "a file reported as durable whole is covered by a finished fsync" if and only if it is not, before that fsync, a repeated DATA of another entry at the end of the file or beyond, a repeated CREATE when the file is all there, or a late fsync of another file |
| AppendCompletion.CompletionIsDurable | src/sender/yisync_append_state.cpp:83-92 | In every run without either kind of step, completion of a regular file at the sender means a finished fsync covers all of it |
| LateMessages.LateDataMisleads | src/receiver/yisync_receiver_coordinator.cpp:93-108 | For every non-empty file that fits one DATA there is a run in which a late DATA of an earlier entry makes the sender count all of it as delivered and drop it from the buffer, with nothing received |
| LateMessages.LateFsyncMisleads | src/receiver/yisync_receiver_coordinator.cpp:398-428 | And one in which an fsync that was under way before the CREATE reports its goal as durable for the new, empty file |
| LateMessages.LateCreateCompletes | src/receiver/yisync_receiver_coordinator.cpp:65-91 | And one in which a repeated CREATE completes the entry at the sender with none of its bytes synced and no fsync of it queued |
| LateMessages.OutstandingLeavesTheBuffer | src/sender/yisync_send_buffer.cpp:58-84 | And one in which a heartbeat about another file takes the outstanding segment out of the buffer while the sender waits for it |
| AppendDurability.NextInv | src/receiver/yisync_receiver_coordinator.cpp:361-442 | Every event keeps the invariant, and the durable offset does not go back |
| AppendDurability.DurableIsCovered | src/receiver/yisync_receiver_coordinator.cpp:415-442 | In every run the durable offset never passes what finished fsyncs cover, and idle means every accepted byte is covered |
| AppendDurability.BecomesIdle | src/receiver/yisync_receiver_coordinator.cpp:361-442 | Two rounds of the disk thread and an accepted poll reach idle, whatever was refused before |
| AppendDurability.AppendFsync.ResetAppendDurableContext | src/receiver/yisync_receiver_coordinator.cpp:340-359 | The whole new state: nothing but the path for the same file, everything at the offset for another |
| AppendDurability.AppendFsync.MaybeEnqueueAppendFsync | src/receiver/yisync_receiver_coordinator.cpp:361-413 | The whole new state, and the fsync that is queued |
| AppendDurability.AppendFsync.ApplyData | src/receiver/yisync_receiver_coordinator.cpp:93-121 | The whole new state, and the fsync that is queued |
| AppendDurability.AppendFsync.PollAppendFsync | src/receiver/yisync_receiver_coordinator.cpp:415-442 | The whole new state, the news for the heartbeat, and the fsync that is queued |
| SendBuffer.ReleasedIsErased | src/sender/yisync_send_buffer.cpp:58-84 | A non-chunk send that the scheduler releases on a heartbeat is erased from the buffer, if and only if next_seq is not 0 and its seq is passed or it has an end offset |
| SendBuffer.ZeroEndIsKept | src/sender/yisync_send_buffer.cpp:58-84 | The failing input exists: a DATA send that ends at 0 is released by a heartbeat of its file and stays in the buffer |
| SendBuffer.FirstIn | src/sender/yisync_send_buffer.cpp:127-295 | The first candidate that is buffered, or none is |
| SendBuffer.NackKeyBelongs | src/sender/yisync_send_buffer.cpp:127-295 | Every key found for a NACK is buffered, of its stream and file, and carries one of its two seqs |
| NackLookup.SomethingIsFound | src/sender/yisync_send_buffer.cpp:127-295 | A NACK finds something if and only if a message of its stream and file is buffered that has the refused seq, or for BAD_SEQ the expected one: a CREATE, FILE_BEGIN or FILE_COMMIT, a DATA at its offset, or the chunk that its offset is in |
| NackLookup.RefusedChunkIsFound | src/sender/yisync_send_buffer.cpp:207-243 | A refused chunk that is buffered is found, by its index; for BAD_CHUNK its FILE_BEGIN comes first while it is buffered |
| NackLookup.RefusedDataIsFound | src/sender/yisync_send_buffer.cpp:225-233 | A DATA refused for its checksum or offset is found if and only if its CREATE, and a chunk of its seq, are no longer buffered; the CREATE is found instead |
| NackLookup.RefusedCommitIsFound | src/sender/yisync_send_buffer.cpp:235-249 | A FILE_COMMIT is found by BAD_COMMIT, a FILE_BEGIN by BAD_CHUNK |
| NackLookup.RefusedCreateIsFound | src/sender/yisync_send_buffer.cpp:251-261 | A CREATE is found by its seq, for every reason of its own |
| NackLookup.ExpectedIsFound | src/sender/yisync_send_buffer.cpp:210-223 | BAD_SEQ finds the message with the expected seq: the CREATE, else the DATA, else the FILE_BEGIN |
| NackLookup.CreateStaysBuffered | src/sender/yisync_send_buffer.cpp:58-84 | A heartbeat takes a CREATE out of the buffer if and only if its next_seq passes it |
| NackLookup.NackMissesTheSegment | src/sender/yisync_send_buffer.cpp:225-233 | For every non-empty file that fits one DATA there is a run in which that DATA is outstanding and buffered, and a BAD_CHECKSUM for it finds the CREATE |
| SendBuffer.T_SenderSendBuffer.Remember | src/sender/yisync_send_buffer.cpp:49-56 | The entry is filed under the key of its request |
| SendBuffer.T_SenderSendBuffer.EraseCompleted | src/sender/yisync_send_buffer.cpp:58-84 | Exactly the acknowledged entries go, with one sample each |
| SendBuffer.T_SenderSendBuffer.EraseFileBegin | src/sender/yisync_send_buffer.cpp:86-105 | Only that entry goes, and its sample is returned |
| SendBuffer.T_SenderSendBuffer.EraseChunk | src/sender/yisync_send_buffer.cpp:107-125 | Only that entry goes, and its sample is returned |
| SendBuffer.T_SenderSendBuffer.KeyForNack | src/sender/yisync_send_buffer.cpp:127-295 | The lookups in their order; NackLookup says what they find |
| SendBuffer.T_SenderSendBuffer.EnqueueRetransmit | src/sender/yisync_send_buffer.cpp:297-305 | Only buffered keys are queued, never twice |
| SendBuffer.T_SenderSendBuffer.EnqueueNackRetransmit | src/sender/yisync_send_buffer.cpp:307-313 | The key of the NACK is queued, or nothing |
| SendBuffer.T_SenderSendBuffer.MarkRetransmitted | src/sender/yisync_send_buffer.cpp:315-326 | The whole new state |
| SendBuffer.T_SenderSendBuffer.ExpiredKeys | src/sender/yisync_send_buffer.cpp:338-359 | At most max_keys expired keys, each once, all of them when there is room |
| SendBuffer.T_SenderSendBuffer.EraseRetransmit | src/sender/yisync_send_buffer.cpp:365-370 | The queue without that position |
| ManifestSync.BeforeTotal | src/core/yisync_sync.cpp:283-297 | The comparator orders any two items with distinct names and ids; which order it is says ScanStands |
| ManifestSync.BeforeTransitive | src/core/yisync_sync.cpp:283-297 | The comparator is a strict order |
| ManifestSync.SortSorts | src/core/yisync_sync.cpp:283-297 | Sorting orders the items by the comparator and keeps them; where each stands says ScanStands |
| ManifestSync.SortedIsUnique | src/core/yisync_sync.cpp:283-306 | A set of items has one sorted list, so the iteration order of the directory does not matter |
| ScanOrder.ScanStands | src/core/yisync_sync.cpp:283-306 | In a scan the entry at place i has seq i + 1; of two top-level numbered files the smaller number comes first, they come before everything else, and of two other entries the one whose name has the smaller byte at the first difference, or ends there |
| ScanOrder.DirectoryStandsFirst | src/core/yisync_sync.cpp:283-306 | A directory comes before everything in it |
| ScanOrder.ScanHasAll | src/core/yisync_sync.cpp:236-281 | Every item has an entry with its name, id, kind, target, size, and the CRC-32C of its last 4 MiB |
| ScanOrder.ScanHasNoMore | src/core/yisync_sync.cpp:236-281 | And every entry is that of an item |
| ScanOrder.LexMeansFirst | src/core/yisync_sync.cpp:296-296 | The comparison of names is by the first byte that differs, or the proper prefix |
| ScanOrder.NumberedName | src/core/yisync_sync.cpp:157-171 | "<n>.file" has the id n, for every 64-bit n |
| ScanOrder.LeadingZero | src/core/yisync_sync.cpp:157-171 | Leading zeros of the number do not matter |
| ScanOrder.NotDigits | src/core/yisync_sync.cpp:157-171 | A name with any other byte in front of ".file" is no number |
| ScanOrder.TooLarge | src/core/yisync_sync.cpp:157-171 | Nor is one whose number does not fit 64 bits |
| ScanOrder.PathIdIsHigh | src/core/yisync_sync.cpp:87-94 | The id of every other entry has the highest of its 64 bits set |
| ScanOrder.NamesHash | src/core/yisync_sync.cpp:87-94 | The hash of "a" and of "ab", by value |
| ScanOrder.OneBeforeTwo | src/core/yisync_sync.cpp:283-306 | "1.file" and "2.file" come in that order however the directory is listed |
| ManifestSync.DiffStream | src/core/yisync_sync.cpp:311-353 | The index loop computes the difference |
| ManifestSync.InSyncMeans | src/core/yisync_sync.cpp:311-353 | In sync if and only if the receiver has every entry in place with the same id, kind and name, links with the same target, files with the same size and checksum |
| ManifestSync.FirstDifferenceDecides | src/core/yisync_sync.cpp:311-353 | Otherwise the first entry that does not agree decides: a missing one is created, a shorter file of the same identity is resumed where it ends, anything else is a conflict |
| ManifestSync.SameRange | src/core/yisync_sync.cpp:140-151 | The checksums of two files of one size agree if and only if their last 4 MiB have the same CRC-32C |
| ManifestSync.UnseenDifference | src/core/yisync_sync.cpp:140-151 | In sync does not mean equal: files that differ only in front of their last 4 MiB are in sync |
| SendPlans.PlanReachesTheTask | src/sender/yisync_sender_plan.cpp:92-148 | The plan made from a difference puts the sender at that task with the same start, in append mode when it resumes |
| SendPlans.PlanEndsTheStream | src/sender/yisync_sender_plan.cpp:92-148 | The plan made from no difference completes the stream; one for an unknown file, or none for the stream, fails and changes nothing |
| SendPlans.T_StreamSendState.ApplyManifest2 | src/sender/yisync_sender_plan.cpp:92-148 | The whole new state and what to start |
| DirectoryScans.RescanKeepsOrder | src/core/yisync_sync.cpp:283-306 | Scanning a complete prefix and one short file gives the same order and seqs as the sender has |
| DirectoryScans.DiffFindsTheGap | src/core/yisync_sync.cpp:311-353 | The difference is the first incomplete item and how much of it is there |
| Convergence.SegmentsComplete | src/receiver/yisync_receiver.cpp:277-366 | DATA from an offset, created or resumed, completes the file and moves expected_seq past it |
| Convergence.TaskAdds | src/receiver/yisync_receiver_coordinator.cpp:64-150 | One task, by CREATE and DATA or in chunks, adds exactly its item, and both receivers of the stream then expect the next |
| Convergence.Converges | src/core/yisync_sync.cpp:283-373 | Scan, difference, plan and transfer of every item, small ones by CREATE and DATA and large ones in chunks, leave the receiver with the sender's directory, and the next difference is none |

## Left out

- Crc32cEngines.ExtendPortable: the buffer is a read-only sequence with a start address; prefetching is left out.
- Crc32cEngines.ExtendSse42: the 64-bit registers are 32-bit words, since the CRC instruction clears the upper half; prefetching is left out.
- SchedulerSpec.Best: line names, snapshots and choose_control_line are not modelled.
- MultiLineScheduler.T_MultiLineScheduler.Configure: buckets are values inside their lines, with the refill that TokenBucket is proved to compute.
- DiskWriter.TasksRunInOrder: memory order is sequentially consistent; the error text and thread start are left out.
- ChunkProtocol.NextInv: one task of one stream whose receiver is not restarted; the retry limit and the begin_sent flag only restrict the sender further and are left out, so the sender may send any chunk at any time; a missing-range list is arbitrary here and proved in MissingRanges; the seq is below 2^64 - 1. The append receiver is its expected_seq alone, which does not pass the chunk receiver's: the coordinator lets the chunk receiver look at the directory before a heartbeat of the append side is queued (src/receiver/yisync_receiver_coordinator.cpp:74-83, 105-111), and what the append side has completed is an entry there.
- ChunkDelivery.CompletionMeansDelivered: the sizes are those of ChunkFiles.Exact; no entry but the task's own appears at its place in the directory before its file is committed.
- AppendProtocol.NextInv: one plan that creates its entry; on a resumed plan expected_seq already exceeds the task's seq, so next_seq is no evidence there. A failed line whose send is no longer buffered, or a recovery that clears the buffer, ends the plan. No chunk commit makes the append receiver look at the directory again while the plan runs, and heartbeats of the chunk receiver are about other file ids. Line ids of what is in flight are left out.
- AppendDurability.DurableIsCovered: one append file, with no earlier fsync outstanding when its context is reset; AppendProtocol has several files, resets by late messages, late fsyncs, and the reports of CREATE.
- ChunkedReceiver.T_ChunkedReceiverStream.OnChunk: the temp file is part of its active file, and a write of it either fails to open, tears, or succeeds.
- AppendStreams.T_ReceiverStream.OnCreate: a name exists when the directory has it, also for a symbolic link that points nowhere; the directory is flat.
- Convergence.Converges: every message of the round arrives, in order except for chunks, and writes succeed; chunks arrive in any order that covers them, possibly repeated; the size of a chunked file rounded up to whole chunks stays below 2^64, which no file system's sizes reach; DATA and chunks are below 2^32 bytes; both scans use the same checksum range; the directory filters and excluded directories are left out; names and file ids are distinct, and there are fewer than 2^32 - 1 entries, since a manifest counts them in 32 bits.
- ManifestSync.SortSorts: std::sort is any sort; an insertion sort stands for it.
- Frames.AsyncFrameConnection.ReadAvailable: an interrupted recv is retried and not seen; callbacks do not close the connection.
- crc32c_arm64.cc: needs carry-less multiplication; the SSE form has the same lane merge.
- Running out of memory for a large announced count, which the source turns into a decoding failure.
- Sockets, event loop, reconnects, hello negotiation, RTO smoothing, watchers, configuration, logging, MD5 and compression.
- Re-entrant callbacks: a send returns without calling back.
- Texts of errors beyond the NACK details that the proofs distinguish.
