# Port forwarder, proxy and line tools: a verified model

The repository holds exercises on Unix programming. Two of them are real protocols. The port
forwarder carries the byte streams of many clients through one TCP tunnel: it frames and
byte-stuffs data from ring buffer to ring buffer, parses the tunnel piece by piece, and runs a small
protocol of NEW, ACK, CLOSE and half-close commands over identifiers from a stack. The proxy relays
pairs of sockets. Two smaller exercises read lines and index the lines of a file.

This project models that code in Dafny and proves what it is for. Code that changes things in place
is modelled twice: as functions on values, about which the theorems speak, and as classes and loops
over arrays in the form of the C code, each method proved to compute those functions. Sockets, poll,
accept and the peer are arbitrary inputs: how many bytes a call moves, which sockets are ready, when
a connection ends or fails.

`dafny verify dfyconfig.toml` checks everything.

## Files

| files | content |
|---|---|
| `Ring.dfy`, `RoundBuffer.dfy` | the circular byte store and its two-segment views; the object that moves offset and length |
| `Framing.dfy`, `Codec.dfy` | stuffing, frames, the resumable decoder; the loops over iterators |
| `Wire.dfy`, `Payload.dfy`, `Receiver.dfy`, `ReadBack.dfy` | a reference reader of the tunnel, and `recv_from_tunnel` proved against it and against the encoder |
| `Pipe.dfy`, `Tunnel.dfy`, `TunnelSteps.dfy`, `Runs.dfy`, `Conservation.dfy`, `Arrival.dfy` | one direction of the forwarder as a system of steps; stream conservation over all runs, and arrival |
| `CommandQueue.dfy`, `Scheduling.dfy`, `Pump.dfy` | the command queue, the order of sending, the pump object |
| `Connections.dfy`, `PollFds.dfy`, `Slots.dfy`, `Manager.dfy`, `Descriptors.dfy` | the flag machine, the aligned arrays, the life of descriptors over all runs |
| `Protocol.dfy`, `Identifiers.dfy`, `Duties.dfy`, `Grammar.dfy` | the controller on values: identifiers, what must be said, and in which order |
| `Host.dfy`, `WireOrder.dfy`, `Aging.dfy` | runs of the controller; the division of identifiers, the order on the wire and what is never taken back |
| `Progress.dfy` | what a turn of the pump and a whole update must send, read and deliver |
| `Accounts.dfy`, `TunnelWire.dfy` | the bytes of every connection, in both directions, and of the tunnel over all runs of the controller |
| `Stranded.dfy`, `Blocked.dfy`, `Handover.dfy` | data that is left behind, a tunnel that is never read again, messages that outlive their connection |
| `Answering.dfy` | runs of the connecting side, which answers NEW |
| `Controller.dfy`, `Update.dfy` | the controller's loops on objects; a whole `update` as one step of a run |
| `Relay.dfy`, `Proxy.dfy` | the proxy on values with its run theorems; its arrays, buffers and main loop |
| `Files.dfy`, `LineIndex.dfy`, `ReadLine.dfy` | reading a file in pieces, the two line indexes, the buffered line reader |

## Where the code departs from its intent

Functions that take a `Variant` exist as shipped and as corrected. For a ring wrap, a split escape, a
dropped command and a double release the property is proved of the correction, the exact condition
under which the shipped code has it is stated, and an example shows the failure. The other entries
are kept in both variants; each names the condition and, where one is needed, the example.

- Ring wrap (`round_buffer.c:70-74` of the forwarder, `round_buffer.c:44-48` of the proxy): a wrapped
  store with room left gives out slots that hold data. Exact condition:
  `Ring.WritingSegsAreFreeSlotsIff`, `Ring.ShippedWriteAppendsIff`; reached by
  `Ring.ShippedWriteClobbersExample`. In the proxy the program goes on and writes bytes it did not
  read in that order. Exact condition: `Relay.ShippedKeepsPrefixIff`; example:
  `Relay.PrefixBrokenExample`. The length can also come to exceed the capacity:
  `Relay.ReadOverflowsIff`.
- Split escape (`pump.c:141-145`): `Framing.ShippedDecodeOverrunsIff`. The correction leaves a lone
  escape byte for the next call.
- Empty frame (`pump.c:79`): with four free bytes and an end byte in front a frame without payload
  is sent. The exact condition is part of `Framing.FrameIsLongest`.
- Unread end (`pump.c:200`): the receiver looks at a head only when more than three bytes are there,
  and an empty frame has three. At the end of the bytes it stays unread, until more arrives. Exact
  condition: `ReadBack.ReceiverReadsBackIff`; example: `ReadBack.EmptyFrameStaysExample`. As long as
  the out_bufs have room nothing else stays: `Arrival.EverythingArrives`.
- Blocked tunnel (`pump.c:133` and `pump.c:193` with `manager.c:310`): a full out_buf in front of the
  message under way stops the tunnel for all connections, and if no poll writes from it, for good,
  since the command that would end the connection is behind in the same tunnel:
  `Blocked.BlockedForever`. Exact condition: `Blocked.UnblocksIff`; reached by
  `Blocked.FailedWriteBlocks`.
- Dropped command (`pump.c:248-253`): `Scheduling.CommandsAllSentIff`. The correction looks before
  it dequeues.
- Double release (`controller.c:109-111` with `controller.c:168-171`):
  `Identifiers.ShippedCloseKeepsPartitionIff`; reached by `Identifiers.DoubleReleaseIsReached`. The
  correction releases only connections that were not marked.
- Stranded data (`pump.c:261` with `controller.c:74-80`): in_buf is skipped once its direction has
  ended. The peer is told of the end if and only if the in_buf is empty (`Stranded.SourceEndSaidIff`),
  and if it is not, it keeps its bytes and the peer is never told, over every further run
  (`Stranded.StrandedForever`). Example: `Stranded.StrandedExample`.
- Missing target (`pump.c:193`): with bytes to read the code assumes that the connection of the
  message under way is still there. This is a precondition of `Pumps.Pump.RecvFromTunnel`, and
  `Updates.Controller.Update` reports the case as `Strayed`.
- Message without connection (`pump.c:191` with `controller.c:106-112`): a connection may be given up
  in the middle of a message for it. Without bytes to read nothing is noticed, and the next connection
  with the identifier gets the rest of the message. Exact condition: `Handover.PumpOwnsIff`, over runs
  `Handover.OwnMessagesIff`. It never happens as long as no update leaves such a message:
  `Handover.BytesAreOfOwnMessages`.
- NEW passed over (`controller.c:138-143` and `controller.c:145`): the connecting side does not answer
  a NEW when its queue is full or a connection with the identifier, given up already, is still in the
  table: `Answering.AnsweredAtOnce`.
- End of the source in the proxy (`main.c:266-270`): buffered bytes are given up. All bytes read are
  written exactly when the buffer was empty (`Relay.EndOfSourceLosesBuffer`).
- The test for valid identifiers (`controller.c:61`) lets 256 pass, which is one behind the table.
  `Controllers.SortConnections` says when that happens. Identifiers in a run are at most 255.
- The comment of `encode` promises a result of 1 only when the source is empty or a byte was encoded; the
  empty frame breaks it, and the model follows the code.

## Model

| member | source | states |
|---|---|---|
| `Ring.ReadingSegsGatherContents` | 34-35. Port forwarding/round_buffer.c:79-96 | The segments handed to a writer of the socket, followed in order, give exactly the stored bytes. |
| `Ring.WritingSegsSlots` | 34-35. Port forwarding/round_buffer.c:58-77 | Which slot the k-th byte written through the segments lands in, shipped and corrected, and that all are inside the store. |
| `Ring.WritingSegsAreFreeSlotsIff` | 34-35. Port forwarding/round_buffer.c:58-77 | The shipped segments are the free slots in append order if and only if the data does not wrap in a store with room left; otherwise the first slot handed out holds live data. The corrected ones always are. |
| `Ring.SlotsPartitionStore` | 34-35. Port forwarding/round_buffer.c:58-96 | Data slots and free slots never meet and together are the whole store. |
| `Ring.FillAppends` | 34-35. Port forwarding/round_buffer.c:113-121 | Writing through the segments and advancing the write pointer appends, when corrected or away from a wrap. |
| `Ring.ShippedWriteAppendsIff` | 34-35. Port forwarding/round_buffer.c:70-74 | Every one-byte write of the shipped code appends if and only if the store is not wrapped with room left. |
| `Ring.ShippedWriteClobbersExample` | 34-35. Port forwarding/round_buffer.c:70-74 | From an empty store of four slots a write, an advance and a write lead the shipped code to a wrapped store, where the next write goes over a stored byte; the correction does not. |
| `Ring.EmptiedStartsAgain` | 34-35. Port forwarding/round_buffer.c:98-111 | An emptied buffer starts at the first slot again, where no write can meet a wrap. |
| `Ring.DropDropsPrefix` | 34-35. Port forwarding/round_buffer.c:98-111 | Advancing the read pointer drops a prefix, at most all of it. |
| `Ring.RingRefinesSequence` | 34-35. Port forwarding/round_buffer.c:58-121 | Over every run of writes and advances the ring is the bounded sequence: always when corrected, and as shipped as long as no write meets a wrap. |
| `RoundBuffers.RoundBuffer.WritingIov` | 34-35. Port forwarding/round_buffer.c:58-77 | The code computes the shipped segments, and they are the free slots if and only if nothing wraps. |
| `RoundBuffers.RoundBuffer.ReadingIov` | 34-35. Port forwarding/round_buffer.c:79-96 | The code computes segments that gather to the contents. |
| `RoundBuffers.RoundBuffer.AdvanceReadPtr` | 34-35. Port forwarding/round_buffer.c:98-111 | The contents lose their first bytes, as many as asked for or all; an emptied buffer starts at 0 again. |
| `RoundBuffers.RoundBuffer.AdvanceWritePtr` | 34-35. Port forwarding/round_buffer.c:113-121 | The length grows by the argument, limited by the free space. |
| `RoundBuffers.RoundBuffer.PeekByte` | 34-35. Port forwarding/round_buffer.c:123-128 | The first stored byte, or nothing. |
| `RoundBuffers.RoundBuffer.Peek` | 34-35. Port forwarding/round_buffer.c:130-147 | A prefix of the contents across both segments, without consuming it. |
| `RoundBuffers.RoundBuffer.ReadFrom` | 34-35. Port forwarding/round_buffer.c:162-173 | Bytes delivered into the segments give the state that the run theorems speak of. |
| `RoundBuffers.RoundBuffer.WriteTo` | 34-35. Port forwarding/round_buffer.c:149-160 | What is sent is the prefix that is dropped. |
| `Framing.FitIsLongest` | 34-35. Port forwarding/pump.c:89-109 | A prefix fits into the room in stuffed form if and only if the greedy loop reaches its end. |
| `Framing.FrameIsLongest` | 34-35. Port forwarding/pump.c:66-117 | The frame has 3 + n + (special bytes) bytes, never more than are free; no longer prefix would fit; it is empty exactly for four free bytes and an end byte in front. |
| `Framing.EncodeTakesLongestPrefix` | 34-35. Port forwarding/pump.c:66-117 | `encode` goes on with an empty source, when the frame of the first byte fits, or when four bytes are free and an end byte is in front; otherwise it refuses. When it writes nothing, and the four facts of `FrameIsLongest` for what it writes. |
| `Framing.EncodeMovesBytes` | 34-35. Port forwarding/pump.c:66-117 | The payload leaves the front of the source and its frame goes behind the contents of the destination, when corrected or away from a wrap of the destination. |
| `Framing.EncodeTakesFront` | 34-35. Port forwarding/pump.c:66-117 | The payload leaves the front of the source also when its frame overwrites stored bytes. |
| `Framing.WireExample` | 34-35. Port forwarding/pump.c:66-184 | The bytes of one frame with both special bytes in it, and of one command, written out. |
| `Framing.ShippedDecodeOverrunsIff` | 34-35. Port forwarding/pump.c:141-145 | The shipped decoder steps past its data if and only if the bytes end between an escape byte and its follower, in front of any end byte and with room to get there. |
| `Framing.ShippedDecodeOverrunExample` | 34-35. Port forwarding/pump.c:141-145 | One lone escape byte on which the shipped decoder overruns and the corrected one waits. |
| `Framing.DecodeInvertsStuff` | 34-35. Port forwarding/pump.c:123-156 | The stuffed form of a payload, closed by an end byte, decodes to that payload and ends behind the end byte if there is room for one byte more; otherwise to as many of its bytes as there is room for, in front of the first one that is left. |
| `Framing.DecodeStuffed` | 34-35. Port forwarding/pump.c:123-156 | The same for such a payload anywhere in the bytes, with anything in front and behind, and from any payload byte on. |
| `Framing.DecodePausesOnlyIfStuck` | 34-35. Port forwarding/pump.c:123-156 | The decoder pauses only when the room or the bytes are used up, or, corrected, in front of an escape byte that is last. |
| `Framing.DecodeResumes` | 34-35. Port forwarding/pump.c:123-156 | A decode that pauses and goes on from there, with more bytes or more room, is one decode. |
| `Framing.DecodeEnds` | 34-35. Port forwarding/pump.c:123-156 | A decode that ended does not depend on later bytes or on more room. |
| `Framing.DecodeCallsAreOneDecode` | 34-35. Port forwarding/pump.c:123-156 | Cutting the bytes at any places and stopping for lack of room at any places gives the bytes, the end position and the status of one unbounded decode, which `DecodeStuffed` computes. |
| `Codec.BufIter.constructor` | 34-35. Port forwarding/pump.c:29-33 | The iterator starts at the first byte of the first segment. |
| `Codec.BufIter.Next` | 34-35. Port forwarding/pump.c:35-44 | The iterator goes through the slots of the segments in order, from the first segment into the second, and says no behind the last byte. |
| `Codec.GetReadIter` | 34-35. Port forwarding/pump.c:46-51 | The iterator reads the contents from the first byte on. |
| `Codec.GetWriteIter` | 34-35. Port forwarding/pump.c:53-58 | The iterator runs over the writing segments. |
| `Codec.CopyStuffed` | 34-35. Port forwarding/pump.c:89-109 | The loop copies exactly the longest prefix that fits, in stuffed form. |
| `Codec.Encode` | 34-35. Port forwarding/pump.c:66-117 | `encode` on two ring buffers is the step that the theorems speak of, for every state of both, and refuses when `Framing.EncodeTakesLongestPrefix` says so. |
| `Codec.DecodeInto` | 34-35. Port forwarding/pump.c:123-156 | `decode` on two ring buffers is the step that the theorems speak of, or reports the step past the data. |
| `Codec.EncodeCommand` | 34-35. Port forwarding/pump.c:158-184 | Five bytes are appended, or nothing when fewer are free. |
| `Wire.ReadItem` | 34-35. Port forwarding/pump.c:197-235 | Behind any bytes, the reference reader reads one frame or command as what it encodes and stands behind it. |
| `Wire.FramesReadBack` | 34-35. Port forwarding/pump.c:66-184 | The reference reader reads any list of frames and commands back as the same list, although identifier, command and argument are sent unescaped. For the receiver see `ReadBack.ReceiverReadsBackIff`. |
| `Wire.FramesAreUnambiguous` | 34-35. Port forwarding/pump.c:66-184 | Two lists of frames and commands give the same bytes if and only if they are the same list. |
| `Receiver.DecodeReads` | 34-35. Port forwarding/pump.c:123-156 | What a decode consumes and delivers is what the reference reader of the whole stream reads there; how far it gets is `Framing.DecodeStuffed`. |
| `Receiver.ReceiveReads` | 34-35. Port forwarding/pump.c:186-236 | Each call of `recv_from_tunnel` moves the reference reader of the whole stream to where the receiver stands, never anywhere else; `sending_to` is all it has to remember. That it moves is `ReadBack.TakesItem` and `Arrival.ReceivingDrains`. |
| `Receiver.ReceiveConsumes` | 34-35. Port forwarding/pump.c:186-236 | What a call has consumed is a prefix of what the tunnel buffer held. |
| `Receiver.ReceiveHands` | 34-35. Port forwarding/pump.c:186-236 | The bytes that each out_buf gained are exactly the payload bytes read for that connection. |
| `Receiver.ReceiveAccepts` | 34-35. Port forwarding/pump.c:207-228 | A call rejects nothing that the reference reader reads for known connections. |
| `Receiver.RejectsIff` | 34-35. Port forwarding/pump.c:207-228 | Between two messages a call ends the process if and only if more than three bytes are there and they begin with no end byte or name an unknown connection. |
| `Receiver.CorrectedReceiveIsSafe` | 34-35. Port forwarding/pump.c:186-236 | With the corrections a call neither overwrites stored bytes nor reads past its data. |
| `ReadBack.TakesItem` | 34-35. Port forwarding/pump.c:186-236 | With more than three bytes in the in_buf, one call reads exactly the frame or command in front, for a known connection with more room than the payload. |
| `ReadBack.GoesOnBehindMessage` | 34-35. Port forwarding/pump.c:193-236 | A call in the middle of a message takes the rest of it and the frame or command behind it. |
| `ReadBack.RejectsBehindMessageIff` | 34-35. Port forwarding/pump.c:193-228 | Behind the rest of a message the call ends the process if and only if a wrong head is there. |
| `ReadBack.ReceiverReadsBackIff` | 34-35. Port forwarding/pump.c:186-236 | With all bytes of a list of frames and commands in the in_buf, for known connections with more room than their payload, as many calls as there are items hand out that list and empty the in_buf if and only if the list does not end in an empty data frame; more calls change nothing. |
| `ReadBack.EmptyFrameStaysExample` | 34-35. Port forwarding/pump.c:200-206 | `encode` sends the three bytes of an empty frame; shipped or corrected, the receiver leaves them, and the reference reader reads them. |
| `Pumps.Pump.RecvFromTunnel` | 34-35. Port forwarding/pump.c:186-236 | The code, on the buffers of all connections, is the step on values: same buffers, same target, same command handed out, same way of ending. |
| `Pumps.TakeOrder` | 34-35. Port forwarding/pump.c:213-222 | Five bytes are consumed and the command and argument handed out are the third and fourth. |
| `Pumps.TakeData` | 34-35. Port forwarding/pump.c:223-234 | The head is consumed and the payload goes to the connection it names. |
| `Conservation.StreamsAreConserved` | 34-35. Port forwarding/pump.c:66-236 | In every interleaving of reads, `encode`, commands, tunnel moves of any size, `recv_from_tunnel` and writes: for each connection, bytes taken out and waiting on the receiving side, then its payload in the tunnel, then the in_buf, are exactly the bytes ever put in. It holds up to the first unguarded fault as shipped, and always when corrected, where no fault occurs. |
| `Conservation.NoRunIsRejected` | 34-35. Port forwarding/pump.c:207-228 | In no such run, shipped or corrected, does the receiver end the process over a wrong head. |
| `TunnelSteps.CorrectedStepNeverFails` | 34-35. Port forwarding/pump.c:66-236 | With the ring wrap and the split escape corrected no step of a run fails. |
| `Arrival.ReceivingDrains` | 34-35. Port forwarding/pump.c:186-236 | In a state of a run where all bytes are in front of the receiver and there is room, a call consumes at least one byte, or there is nothing or one empty frame in front of it. |
| `Arrival.EverythingArrives` | 34-35. Port forwarding/pump.c:186-236 | After every run, shipped up to the first fault or corrected: once all bytes are in front of the receiver and each out_buf has more room than its payload there, as many calls as bytes leave at most one empty frame; then for every connection what left its out_buf, what waits there and the in_buf on the other side are exactly the bytes ever put in. |
| `CommandQueues.CommandQueue.Make` | 34-35. Port forwarding/command_queue.c:12-33 | A queue of capacity 0 is refused, any other starts empty. |
| `CommandQueues.CommandQueue.Enqueue` | 34-35. Port forwarding/command_queue.c:46-54 | Appends to the waiting commands, or refuses exactly when the queue is full. |
| `CommandQueues.CommandQueue.Dequeue` | 34-35. Port forwarding/command_queue.c:56-69 | Takes the oldest waiting command; an empty queue gives CMD_NOP. |
| `Scheduling.CommandsAllSentIff` | 34-35. Port forwarding/pump.c:247-254 | All queued commands are sent if and only if five bytes are free for each; otherwise as many as fit. |
| `Scheduling.CommandsInOrder` | 34-35. Port forwarding/pump.c:247-254 | The commands go into the tunnel in the order of the queue. |
| `Scheduling.ShippedDropsCommandExample` | 34-35. Port forwarding/pump.c:248-253 | With four free bytes a command leaves the queue and is not sent; corrected it stays in the queue. |
| `Scheduling.PassOffers` | 34-35. Port forwarding/pump.c:256-268 | An unblocked pass offers every live connection one `encode`; a blocked one exactly those visited before the blocked one. |
| `Scheduling.VisitOf` | 34-35. Port forwarding/pump.c:257-258 | Every identifier from 1 to 255 is visited at exactly one step of a pass, wherever it starts. |
| `Scheduling.LiveVisitsOnce` | 34-35. Port forwarding/pump.c:257-262 | A pass contains each live connection once and no other. |
| `Scheduling.NextPassStartsBehind` | 34-35. Port forwarding/pump.c:263-267 | The pass after a blocked one starts right behind the blocked connection, which comes last. |
| `Scheduling.PassFrames` | 34-35. Port forwarding/pump.c:256-268 | The frames of a pass go into the tunnel in the order of the visits, as long as it overwrites nothing. |
| `Scheduling.PassDivides` | 34-35. Port forwarding/pump.c:256-268 | No byte of any connection is lost between its in_buf and the frames of a pass, whatever the pass overwrites. |
| `Scheduling.TransferServes` | 34-35. Port forwarding/pump.c:242-269 | As many commands are sent as have five free bytes each. If that is all of them, every live connection with bytes in its in_buf has a frame of a nonempty prefix of them (or the empty frame) among the items, or the pass was blocked at a connection visited no later, whose first byte does not fit. |
| `Scheduling.TransferPutsCommandsFirst` | 34-35. Port forwarding/pump.c:242-269 | Commands first and in order, data behind them and none when a command did not fit; the queue loses nothing if and only if every command was sent, or when corrected. That the data pass is made is `TransferServes`. |
| `Pumps.Pump.SendQueued` | 34-35. Port forwarding/pump.c:247-254 | The command loop on the circular queue and the ring buffer is the step on values. |
| `Pumps.Pump.OfferAll` | 34-35. Port forwarding/pump.c:256-268 | The data loop on the connections is the pass on values, and `current_index` is where it was blocked. |
| `Pumps.Pump.TransferOut` | 34-35. Port forwarding/pump.c:242-269 | The sending half of `pump_transfer` is the transfer on values, of which `Scheduling.TransferServes` says what it must do. |
| `PollFds.PollFd.Clear` | 34-35. Port forwarding/manager.c:270-275 | The events go, the descriptor behind the number stays, and the number is negative exactly when no event is left. |
| `PollFds.PollFd.Set` | 34-35. Port forwarding/manager.c:277-285 | The events are added, the descriptor stays, and the number becomes non-negative. |
| `Slots.PollKeepsOk` | 34-35. Port forwarding/manager.c:431-490 | In every open slot the number is negative exactly when no event is asked for and stands for the descriptor the connection was added with; a closed connection has both directions closed. Every `cm_poll` keeps this. |
| `Slots.PollSettles` | 34-35. Port forwarding/manager.c:380-429 | In front of the transfers of every `cm_poll`, and behind a completed one, every direction with an end-of-file or deletion mark is closed, two dead directions mean a closed socket, and no connection is marked for deletion. |
| `Slots.PollDescends` | 34-35. Port forwarding/manager.c:431-490 | Through a whole `cm_poll` no connection changes its identifier or descriptor and no end-of-file, closed or deletion mark is taken back; the in_buf and the record of bytes read grow together, and what left the out_buf is what was written; a buffer whose direction is dead or stopped does not change; nothing appears but the accepted connection. That bytes move is `PollMoves`. |
| `Slots.PollMoves` | 34-35. Port forwarding/manager.c:287-330 | From what poll reports: behind a completed `cm_poll` every open connection is in the table; if its input is alive, not stopped and has room, delivered bytes are behind the contents of its in_buf and in the record (or where `Ring.ShippedWriteAppendsIff` says, on a wrap); bytes taken leave the front of its out_buf; an end of file marks its direction; and the events asked for next are input with room and output with bytes. |
| `Slots.PollKeepsClosed` | 34-35. Port forwarding/manager.c:380-429 | A connection whose socket is closed stays in the table as it is until it is marked for deletion. |
| `Slots.PollTakesAccepted` | 34-35. Port forwarding/manager.c:345-378 | A new client is the last of the table behind the poll that took it: without identifier, new, with empty buffers, and its input is asked for. |
| `Slots.StoppedMovesNothing` | 34-35. Port forwarding/manager.c:287-330 | Through a whole `cm_poll` no byte of a stopped connection moves. |
| `Slots.KeptPlaces` | 34-35. Port forwarding/manager.c:415-429 | Exactly the slots that are not both deleted and closed stay, each once and in their order. |
| `Slots.CloseAllAccounts` | 34-35. Port forwarding/manager.c:380-413 | For every descriptor: open before is open after plus closed. |
| `Slots.KeptAccounts` | 34-35. Port forwarding/manager.c:415-429 | Freeing never removes an open descriptor: memory goes only after its socket was closed. |
| `Slots.PollAccounts` | 34-35. Port forwarding/manager.c:431-490 | For every descriptor: open before plus accepted is open after plus closed. |
| `Slots.DestroyAccounts` | 34-35. Port forwarding/manager.c:220-245 | `destroy_manager` closes what is open, each once. |
| `Descriptors.EveryDescriptorClosedOnce` | 34-35. Port forwarding/manager.c:220-245 | Over every run that ends in `destroy_manager` the descriptors closed are, as a multiset, the descriptors taken over. |
| `Descriptors.BehindTouches` | 34-35. Port forwarding/controller.c:310-328 | What an update does behind poll keeps every descriptor, its poll entry and what close_sockets has set, and leaves sound buffers. |
| `Descriptors.UpdatesCloseOnce` | 34-35. Port forwarding/controller.c:305-331 | So over every run of updates that ends in `destroy_manager` each descriptor is closed exactly as often as it was taken over. |
| `Managers.ConnectionManager.AddConnection` | 34-35. Port forwarding/manager.c:94-109 | Both arrays grow by the same slot, or nothing changes and -1 is returned when they are full. |
| `Managers.ConnectionManager.CloseSockets` | 34-35. Port forwarding/manager.c:380-413 | The loop changes every slot as on values and closes exactly the descriptors listed there. |
| `Managers.ConnectionManager.Compact` | 34-35. Port forwarding/manager.c:415-429 | In-place compaction of two arrays is the stable filter of the slots that stay, and both arrays stay aligned. |
| `Managers.ConnectionManager.ShrinkTable` | 34-35. Port forwarding/manager.c:415-429 | After `shrink` the arrays show the filtered table. |
| `Managers.ConnectionManager.ReceiveAt` | 34-35. Port forwarding/manager.c:287-307 | The read of one slot on the objects is the step on values, whose effect on in_buf and events is part of `Slots.PollMoves`. |
| `Managers.ConnectionManager.TransmitAt` | 34-35. Port forwarding/manager.c:309-330 | `transmit` on the objects is the step on values. |
| `Managers.ConnectionManager.Accept` | 34-35. Port forwarding/manager.c:341-378 | The new connection is empty, marked CS_NEW and without identifier, and takes the next slot. |
| `Managers.ConnectionManager.CmPoll` | 34-35. Port forwarding/manager.c:431-490 | `cm_poll` on the two arrays is the poll on values, with the same descriptors closed in the same order. |
| `Managers.ConnectionManager.GetConnections` | 34-35. Port forwarding/manager.c:153-156 | The connections in the order of the table. |
| `Managers.ConnectionManager.Destroy` | 34-35. Port forwarding/manager.c:220-245 | Exactly the descriptors of the connections that are not closed are closed. |
| `Identifiers.AllFreeAtFirst` | 34-35. Port forwarding/controller.c:27-31 | The initial stack holds every identifier from 1 to 255 once. |
| `Identifiers.RoomToRelease` | 34-35. Port forwarding/controller.c:37-43 | While a connection holds an identifier the stack has room for it: a release never overflows. |
| `Identifiers.NamingKeeps` | 34-35. Port forwarding/controller.c:60-66 | The identifier on top of the stack is one of 1 to 255 that no connection holds, and giving it out keeps the division of the identifiers. |
| `Identifiers.SortKeeps` | 34-35. Port forwarding/controller.c:53-68 | `sort_connections` keeps the division, and every entry of its table leads to a holder. The other half is `SortFills`. |
| `Identifiers.SortFills` | 34-35. Port forwarding/controller.c:53-68 | Behind `sort_connections` every connection with an identifier, had or given, is in the table at the place of that identifier. |
| `Identifiers.SortNames` | 34-35. Port forwarding/controller.c:53-68 | A connection stays without identifier only if the stack is exhausted; the others keep theirs, nobody gets that of the tunnel, and nothing but identifiers changes. |
| `Identifiers.HandleKeeps` | 34-35. Port forwarding/controller.c:95-128 | `handle_state_changes` keeps the division and the table: what it gives back, and nothing else, loses its holder. |
| `Identifiers.CommandEndsOneThing` | 34-35. Port forwarding/controller.c:160-185 | On either side a command other than NEW concerns the first connection with its identifier alone, and changes exactly one mark of it: CLOSE and the half-closes set one, ACK ends the wait; nothing is queued. |
| `Identifiers.NewIsAnswered` | 34-35. Port forwarding/controller.c:135-159 | NEW for a known identifier changes nothing; for an unknown one it is answered by ACK or CLOSE if and only if the queue has room; identifiers stay distinct. |
| `Identifiers.OnCommandKeeps` | 34-35. Port forwarding/controller.c:160-185 | A command of the peer keeps the division, unless it releases twice. |
| `Identifiers.ShippedCloseKeepsPartitionIff` | 34-35. Port forwarding/controller.c:168-171 | The shipped handler of CMD_CLOSE keeps the division if and only if the connection is not marked already, or the stack is full. |
| `Identifiers.ShippedSharesIdentifier` | 34-35. Port forwarding/controller.c:109-171 | From the state behind an announced close: when the peer closes the connection as well, the next two connections get the same identifier, and the table of the pump holds only one of them. |
| `Identifiers.DoubleReleaseIsReached` | 34-35. Port forwarding/controller.c:109-171 | The loop of `handle_state_changes` leads to that state for every connection that is closed and drained: announced, released, and still in the table when the command arrives. |
| `Host.IdentifiersArePartitioned` | 34-35. Port forwarding/controller.c:305-331 | In every run, also one that loses commands, until an identifier is released twice: between updates each of 1 to 255 is free once or held by one connection. |
| `Grammar.DataNeedsOpenSource` | 34-35. Port forwarding/controller.c:115-120 | In a log that keeps the order no data follows CLOSE_SRC_TO_DST, CLOSE or the peer's close without a new NEW in between, and none comes before the first. |
| `Grammar.NewNeedsClose` | 34-35. Port forwarding/controller.c:99-113 | In such a log an identifier is announced as new again only after its close. |
| `Grammar.ReactAgrees` | 34-35. Port forwarding/controller.c:99-127 | What is said about one connection continues the order of its identifier, and behind it the connection is greeted. |
| `Grammar.HandleMatches` | 34-35. Port forwarding/controller.c:95-128 | A whole `handle_state_changes` continues the order of every identifier, also when the full queue stops it halfway. |
| `Grammar.OnCommandMatches` | 34-35. Port forwarding/controller.c:160-185 | The flags set by a command of the peer agree with the order of what may still be said. |
| `WireOrder.WireKeepsGrammar` | 34-35. Port forwarding/controller.c:305-331 | In every run until an identifier is released twice, also one that loses commands: for each identifier NEW first, data only until CLOSE_SRC_TO_DST, each half-close at most once, CLOSE last, and again only after it. In every run that loses no command tunnel plus queue carry exactly what was said, in order. |
| `Host.CorrectedRunsNeverFail` | 34-35. Port forwarding/controller.c:305-331 | With the check moved before the dequeue, the release guarded and the segments repaired no run loses a command, releases twice or overwrites bytes in the tunnel or in any other out_buf. |
| `WireOrder.CorrectedWireKeepsGrammar` | 34-35. Port forwarding/controller.c:305-331 | With the corrections the order, the tunnel contents and the division of identifiers hold of every run. |
| `Aging.UpdateAges` | 34-35. Port forwarding/controller.c:305-331 | Through a whole update no end-of-file, closed or deletion mark is taken back, an identifier stays once it is given, no connection becomes new again, and one that was announced stays stopped until that update reads the acknowledgement for its identifier out of the tunnel. |
| `TunnelWire.PumpFillsTunnel` | 34-35. Port forwarding/pump.c:242-269 | One turn of the pump that overwrites nothing puts into the tunnel's out_buf, behind its contents, the commands it took from the queue and behind these its frames, and into the record of the run the same. |
| `TunnelWire.TunnelCarriesWire` | 34-35. Port forwarding/controller.c:305-331 | In every corrected run, and every shipped one until an identifier is released twice or bytes are overwritten in the tunnel: the bytes written to the socket of the tunnel and those in its out_buf are the encodings of everything put into it, in order, and are read as that. |
| `Accounts.EveryByteIsAccounted` | 34-35. Port forwarding/controller.c:305-331 | In every run until an identifier is released twice, across accept, close and reuse: the bytes read from the socket of a connection are the payload sent for its identifier since its own NEW, followed by its in_buf, until a read meets a wrap. |
| `Accounts.EveryByteIsDelivered` | 34-35. Port forwarding/controller.c:305-331 | The other way round, in every run until an identifier is released twice or a received frame overwrites bytes: the bytes written to the socket of a connection, followed by its out_buf, are the payload that came out of the tunnel for its identifier since its own NEW. |
| `Accounts.HearHands` | 34-35. Port forwarding/pump.c:186-236 | In a turn of the pump that overwrites nothing the out_buf of a connection gains exactly the payload read for it. |
| `Accounts.EndSaidMeansAllSent` | 34-35. Port forwarding/controller.c:107-121 | When CLOSE or CLOSE_SRC_TO_DST is said for a connection, all bytes read from its socket have been sent since its NEW. |
| `Duties.HandleSaysOwed` | 34-35. Port forwarding/controller.c:95-128 | What `handle_state_changes` queues is, in the order of the identifiers, everything that is owed, as far as the queue has room, and nothing else; it returns STATE_AGAIN if and only if the room does not suffice. |
| `Duties.HandleMarks` | 34-35. Port forwarding/controller.c:90-129 | What the loop says about a connection marks it and changes nothing else: NEW means greeted and waiting, CLOSE deleted and out of the table, a half-close that its direction is given up. |
| `Duties.HandleStaysFilled` | 34-35. Port forwarding/controller.c:90-129 | The loop takes nobody out of the table but those it marked as deleted. |
| `Duties.HandleLeaves` | 34-35. Port forwarding/controller.c:90-129 | Connections outside the table and the tunnel stay as they are. |
| `Duties.ConnectingReleasesNothing` | 34-35. Port forwarding/controller.c:109-111 | The side that gives out no identifiers takes none back. |
| `Duties.UnblockedSaysExactly` | 34-35. Port forwarding/controller.c:74-128 | Unblocked it says, about each connection of its table: NEW if and only if it is new; CLOSE if and only if the socket is closed and both buffers are empty; that a direction ended at its socket if and only if its buffer is empty. |
| `Stranded.StrandedForever` | 34-35. Port forwarding/pump.c:256-262 | From any state whose identifiers are divided: bytes in the in_buf of a connection whose source direction has ended stay there over every further run, shipped or corrected, and no data, CLOSE_SRC_TO_DST or CLOSE is ever said for it, until the peer closes it. |
| `Stranded.SourceEndSaidIff` | 34-35. Port forwarding/controller.c:74-121 | In an update that is not blocked the end of a source at its socket is said, by CLOSE_SRC_TO_DST or CLOSE, if and only if the in_buf is empty. |
| `Stranded.StrandedExample` | 34-35. Port forwarding/pump.c:261 | One byte in the in_buf when its source ends: it is stuck and nothing is owed to the peer, also when the socket is closed altogether. |
| `Blocked.BlockedForever` | 34-35. Port forwarding/pump.c:191-194 | From any state whose identifiers are divided: if the message under way is for a connection with a full out_buf that no poll writes from, then over every further run, shipped or corrected, nothing is read out of the tunnel, for no connection, the peer ends none, and message and out_buf stay as they are. |
| `Blocked.UnblocksIff` | 34-35. Port forwarding/manager.c:309-330 | With a full out_buf in front of the message under way, some further run comes to a poll that makes room in it if and only if the connection is alive, its output is, and it is not stopped. |
| `Blocked.FailedWriteBlocks` | 34-35. Port forwarding/manager.c:315-324 | A write of a full out_buf that ends with an error leads there. |
| `Handover.BytesAreOfOwnMessages` | 34-35. Port forwarding/pump.c:191-235 | In every run until an identifier is released twice: if no update leaves a message under way for an identifier that nobody holds, every byte that a connection gets is of a message whose head was read since its own NEW. |
| `Handover.PumpOwnsIff` | 34-35. Port forwarding/pump.c:186-236 | One turn of the pump gives a connection only bytes of its own messages if and only if it does not find a message under way whose head was read before the NEW of the connection, with a payload byte in front and room for it. |
| `Handover.OwnMessagesIff` | 34-35. Port forwarding/controller.c:305-331 | Over every run each byte that a connection gets is of a message that began since its own NEW if and only if no update comes to such a turn. |
| `Answering.EveryNewIsAnswered` | 34-35. Port forwarding/controller.c:132-186 | Over every run of the connecting side identifiers stay distinct, and, unless a NEW that concerned no connection was passed over: what is said about each identifier keeps the order of the protocol; each such NEW is answered by one ACK or CLOSE, before anything else is said about the identifier; each ACK is such an answer. |
| `Answering.AnsweredAtOnce` | 34-35. Port forwarding/controller.c:135-159 | A NEW that concerns no connection is passed over if and only if the queue is full or a connection with its identifier, given up already, is still in the table. |
| `Answering.NewInFrontIsAnswered` | 34-35. Port forwarding/controller.c:132-158 | With NEW for an unknown identifier in front of the tunnel and room in the queue, one turn reads it, queues ACK or CLOSE, and in the first case the new connection is last in the table. |
| `Answering.TableIsFullHere` | 34-35. Port forwarding/controller.c:305-331 | On this side too the table of the pump holds exactly those not announced as gone, and the pump is reached if and only if the tunnel is open and the queue has room. |
| `Answering.TurnServesHere` | 34-35. Port forwarding/pump.c:238-270 | A turn of the pump on this side serves every waiting connection, as `Progress.PumpServes` says of the other. |
| `Host.SendingObeysFlags` | 34-35. Port forwarding/pump.c:242-269 | In every state only connections whose flags allow it have frames in a turn of the pump, and none has any behind a command that did not fit. |
| `Progress.PumpServes` | 34-35. Port forwarding/pump.c:238-270 | A turn of the pump: with five free bytes per queued command the queue is emptied into the tunnel, and for every connection of the table that waits behind the receiving half, a frame of its bytes follows, or the turn ends for want of room at a connection visited no later, where the next pass begins. |
| `Progress.PumpTableIsFull` | 34-35. Port forwarding/controller.c:305-331 | In every update of a divided table, the table of the pump holds every connection that has an identifier and was not announced as gone, each at its place, and nobody else. |
| `Progress.UpdateGoesOnIff` | 34-35. Port forwarding/controller.c:312-326 | An update goes on to the pump if and only if the tunnel is in the table and open in both directions, and the queue has room for everything owed. |
| `Progress.UpdateServes` | 34-35. Port forwarding/controller.c:305-331 | A whole update that gets to its pump serves every holder of an identifier with bytes waiting, as `PumpServes` says. |
| `Progress.TurnGoesThrough` | 34-35. Port forwarding/pump.c:186-236 | No turn is refused if the reference reader gets through the bytes of the tunnel with frames for connections of the table. |
| `Progress.TurnKeepsReading` | 34-35. Port forwarding/pump.c:186-236 | Behind each turn the reference reader gets from where the pump stood to where it stands: the message under way is remembered and the bytes not yet read are still in the in_buf. |
| `Progress.TurnReads` | 34-35. Port forwarding/pump.c:186-236 | In a turn between two messages the frame or command in front is read, once more than three bytes are there and the connection has more room than the payload, and a command is carried out. |
| `Progress.TurnDelivers` | 34-35. Port forwarding/pump.c:186-236 | The payload of the frame in front goes behind the contents of the out_buf of the connection it names, if the call meets no wrap. |
| `Progress.FromIsByte` | 34-35. Port forwarding/pump.c:263-267 | Over every run the place where the next pass starts is 0 or an identifier. |
| `Controllers.IdStack.constructor` | 34-35. Port forwarding/controller.c:27-31 | The array holds the initial stack. |
| `Controllers.IdStack.Push` | 34-35. Port forwarding/controller.c:37-43 | Pushes, or changes nothing when the stack is full. |
| `Controllers.IdStack.Pop` | 34-35. Port forwarding/controller.c:45-51 | Pops the last pushed identifier, or gives -1. |
| `Controllers.SortConnections` | 34-35. Port forwarding/controller.c:53-68 | The loop on the objects fills the table as on values; if and only if there is an identifier of 256, which the test lets through, it says so and stops in front of the write behind the table. |
| `Controllers.ReactTo` | 34-35. Port forwarding/controller.c:99-127 | What the body of the loop queues and which flags it sets, also when it stops halfway. |
| `Controllers.HandleStateChanges` | 34-35. Port forwarding/controller.c:90-130 | The loop on objects, stack and queue is the step on values, with the same status. |
| `Controllers.OnCommand` | 34-35. Port forwarding/controller.c:132-186 | Stack, queue and flags change as on values for every command and both sides, and `cm_connect` is called exactly for a NEW with an unknown identifier. |
| `Updates.Controller.Obey` | 34-35. Port forwarding/controller.c:160-185 | A command of the peer changes objects, stack and queue like the step of the host. |
| `Updates.Controller.Listen` | 34-35. Port forwarding/pump.c:186-236 | `recv_from_tunnel` on the objects: the tunnel's in_buf, every out_buf, the message under way and the command become those that the step computes, and no other buffer changes. |
| `Updates.Controller.Hear` | 34-35. Port forwarding/pump.c:186-245 | Receiving together with the command it read: the objects show the host behind it, or the program strays, which it does exactly when the host does. |
| `Updates.Controller.Send` | 34-35. Port forwarding/pump.c:242-269 | The sending half on the objects: queue, place of the next pass, tunnel out_buf and all in_bufs become those that the step computes, and no other buffer changes. What the step must send is `Progress.PumpServes`. |
| `Updates.Controller.RunPump` | 34-35. Port forwarding/pump.c:242-269 | Receiving, the command it read and sending are one turn of the pump in a run, in every field of every connection, queue, stack and pump; it strays exactly when the turn does. |
| `Updates.Controller.Update` | 34-35. Port forwarding/controller.c:305-331 | Manager, stack, queue and pump together: a whole `update` is one step of the run that the theorems speak of, with all buffers, what the pump received and what it sent, the new client with buffers of the given size, and the same descriptors closed; it strays exactly when the step does. |
| `Relay.ReadOverflowsIff` | 33. Proxy/round_buffer.c:93-104 | A shipped read can leave more bytes than the capacity if and only if it meets a wrapped buffer with room left. |
| `Relay.TransferKeepsStream` | 33. Proxy/main.c:256-293 | Under any short reads, short writes, errors and ends: until a read goes over stored bytes, what was written is a prefix of what was read and an active direction holds the rest; in any case no more bytes are written than read, and an active direction holds as many as are missing. What must move is `TransferMoves`. |
| `Relay.TransferMoves` | 33. Proxy/main.c:256-293 | For an active direction whose read does not end it, whether or not anything was read: what is written is exactly the first of the waiting bytes, as many as the write took; the rest stay; a write that ends or fails gives the direction up. |
| `Relay.TransferEndsOnRead` | 33. Proxy/main.c:263-271 | A read that ends or fails gives the direction up and writes nothing. |
| `Relay.ShippedKeepsPrefixIff` | 33. Proxy/round_buffer.c:44-48 | From an active direction in order with room left: whatever the next `transfer` reads and writes, what was written stays a prefix of what was read if and only if the data in the buffer does not wrap. |
| `Relay.PrefixBrokenExample` | 33. Proxy/main.c:273-285 | Three calls of `transfer` on an empty store of four slots: the third read meets a wrap, the length stays within the capacity, and the bytes written then are not those read. |
| `Relay.EndOfSourceLosesBuffer` | 33. Proxy/main.c:266-270 | When the source ends as many bytes were delivered as were read if and only if the buffer is empty; in a direction that kept the order, the same bytes. |
| `Relay.TransferKeepsMasks` | 33. Proxy/main.c:256-293 | `transfer` keeps both shared poll entries exact for both directions, unless its read left more than the capacity. |
| `Relay.ServeKeepsOk` | 33. Proxy/main.c:437-448 | Both directions of a client in turn, also behind a read that goes over stored bytes, keep what `Relay.TransferKeepsStream` says of the streams, and the poll entries as long as no length exceeds its capacity. |
| `Relay.ServeMoves` | 33. Proxy/main.c:437-448 | In its turn a client moves both directions as `TransferMoves` says, each from its own source to its own target. |
| `Relay.RoundServes` | 33. Proxy/main.c:427-457 | In every round every client with buffers within their capacity has such a turn. |
| `Relay.RoundRemoves` | 33. Proxy/main.c:449-456 | Over a round a client leaves the table, and its two descriptors are closed in order, if and only if both directions are inactive behind its turn; the others stay in order. |
| `Relay.RoundAccepts` | 33. Proxy/main.c:111-121 | An accepted client stands last in the table with two empty active directions and exact poll entries. |
| `Relay.ServeCallsOnSockets` | 33. Proxy/main.c:437-448 | No read or write is issued on a negative number, or on a socket of another client. |
| `Relay.RunsAreSafe` | 33. Proxy/main.c:410-458 | Over every run of the main loop: every direction in which no read met a wrapped buffer has written a prefix of what it read and, while it is active, holds the rest; in all others the numbers of bytes agree; every client whose buffers are within their capacity has exact poll entries; every descriptor is closed once, with its client or at the end. |
| `Relay.RunsCallOnSockets` | 33. Proxy/main.c:410-458 | After every run, whatever poll reports next, a client whose buffers are within their capacity reads and writes only on its two sockets. |
| `Relay.CorrectedNeverMixes` | 33. Proxy/round_buffer.c:32-51 | With the corrected segments, over every run, no read goes over stored bytes or past the capacity, and every direction of every client writes a prefix of what it reads. |
| `Proxies.ProxyBuffer.MakeWriteIov` | 33. Proxy/round_buffer.c:32-51 | The segments are the free slots if and only if nothing wraps. |
| `Proxies.ProxyBuffer.MakeReadIov` | 33. Proxy/round_buffer.c:54-71 | The segments gather to the contents. |
| `Proxies.ProxyBuffer.WriteRb` | 33. Proxy/round_buffer.c:73-91 | What was written is the prefix that is dropped. |
| `Proxies.ProxyBuffer.ReadRb` | 33. Proxy/round_buffer.c:93-104 | The bytes go through the segments and the length grows without a limit; a buffer that did not wrap stays sound. |
| `Proxies.TransferBetween` | 33. Proxy/main.c:256-293 | `transfer` on two entries of the poll array is the step on values, of which `Relay.TransferMoves` says what it must do, also behind a read that goes over stored bytes, and touches no other entry; it says exactly when its read left more than the capacity, and stops there. |
| `Proxies.Proxy.AddSlot` | 33. Proxy/main.c:52-60 | Both arrays show one more client, with input asked for on both sockets. |
| `Proxies.Proxy.AddClient` | 33. Proxy/main.c:111-121 | -2 and nothing changed when no slot is left, otherwise one new client. |
| `Proxies.Proxy.CopySlot` | 33. Proxy/main.c:39-46 | The slot and both its poll entries move together. |
| `Proxies.Proxy.Compact` | 33. Proxy/main.c:66-75 | In-place compaction of the two arrays is the stable filter of the clients that stay. |
| `Proxies.Proxy.Disconnect` | 33. Proxy/main.c:123-133 | The slot is cleared and both descriptors of the client are closed. |
| `Proxies.Proxy.ServeSlot` | 33. Proxy/main.c:432-456 | The body of the loop is the turn on values, for any two buffers within their capacity, and a client with two dead directions is closed; it says exactly when a length came to exceed its capacity. |
| `Proxies.Proxy.Turn` | 33. Proxy/main.c:427-457 | One turn of the main loop, with accept, service and compaction, is one round of the run, for any buffers within their capacity; it says exactly when a length comes to exceed it. |
| `LineReader.LineLengthIsFirst` | 5,6. File/read_line.c:73-87 | The piece ends with the first line break or is full. |
| `LineReader.NextLineForms` | 5,6. File/read_line.c:103-179 | A line is the bytes through a line break, size-1 bytes, or the whole remainder with one added line break, and nothing else. |
| `LineReader.CallsRebuildInput` | 5,6. File/read_line.c:103-179 | For all sizes of at least 2 the results joined are the input, with at most one line break added at its end; as many calls as bytes read everything. |
| `LineReader.Buffer.ConsumeLine` | 5,6. File/read_line.c:73-87 | The copied bytes are the first line of the buffer, at most size of them, and leave the buffer. |
| `LineReader.ReadLine` | 5,6. File/read_line.c:103-179 | However read splits the input and whatever the capacity of the buffer, the result is that of the specification on the remaining input; a failing read loses what was gathered. |
| `LineIndex.ScanMapped` | 7. mmap/main.c:34-46 | The scan in memory lists exactly the lines that end with a line break. |
| `LineIndex.ScanPiece` | 5,6. File/main.c:33-44 | One piece carries the scan from any place on, also inside a line. |
| `LineIndex.ScanFile` | 5,6. File/main.c:17-47 | However read splits the file, the list is that of the scan in memory and one last line, maybe empty. |
| `LineIndex.JoinRebuilds` | 5,6. File/main.c:17-47 | The listed lines joined with line breaks are the file. |
| `LineIndex.LinesAreUnbroken` | 7. mmap/main.c:34-46 | No listed line contains a line break. |

## Left out

- Sockets, poll, the pipe, signals, accept, connect, shutdown and close: only their outcomes appear, as arbitrary inputs of the steps.
- Allocation failures, printing, argument and port parsing, and the return codes that only report such failures.
- `accept_connection` goes on with descriptor -1 after an unexpected error of accept (`manager.c:349-353`); accepted descriptors are taken to be valid.
- What the program does behind a step that is undefined: past the end of the data in the decoder, with a length beyond the capacity in the proxy, with bytes for a missing target. The model stops there and says so (`Overran`, `burst`, `Strayed`).
- Updates.Controller.Update: the accepting side with a peer that sends no NEW and no command about connection 0; a peer that does otherwise is reported as `Strayed`. The runs of the connecting side are modelled on values (`Answering`), its objects by `Controllers.OnCommand` and `Managers.ConnectionManager.AddConnection`, not as a whole `update`.
- Answering.EveryNewIsAnswered: of a run in which a NEW was passed over it says only that identifiers stay distinct.
- Conservation.StreamsAreConserved: the set of connections is fixed during a run; connections that come and go are the subject of `Accounts`, for each host by itself.
- Accounts.EveryByteIsAccounted: says nothing behind a read of that connection that meets a wrap, where the shipped code has overwritten stored bytes.
- Accounts.EveryByteIsDelivered: says nothing behind a received frame that meets a wrap in any out_buf, where the shipped code has overwritten stored bytes.
- Fairness and liveness over runs: what one update must do is proved (`Progress`); that every byte arrives in the end is not, since a blocked connection goes last in the next pass and `controller.c:325` skips the pump while the command queue is full.
- Races on the reuse of an identifier between the two hosts, such as a CLOSE in flight that meets a reused identifier.
- The timer and select part of `read_line`, and its use of `bytes_read` without a value there.
- `print_line` of both line programs, `input_valid_line`, and the linked list of lines, which is a sequence here; the copies of these files in `7. mmap`.
- The other exercises: thin wrappers over fork, exec, pipe, time, locks and user identifiers.
