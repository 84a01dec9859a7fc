# A verified model of ws-cluster

ws-cluster is a websocket relay: clients connect to one of several hubs, hubs are connected to each other in a full mesh,
and a message for a client, a group or a domain finds its way to the connections it is for. Every hub can log what it
relays to a file, and a background reader turns the log into database rows. This project models that machinery in Dafny
and proves what its protocols keep. Nothing here executes the program; everything is checked by the verifier.

## Reading order

* **Bytes and messages.** `Bytes`, `Addr` (the packed 32-byte address, its printer and parser), `Wire` (the message format
  as functions), `WireIO` (the same as the source runs it: field by field over a reader and a writer).
* **The durable queue.** `Block` (a 4 KiB block in 16-bit arithmetic, as values and as a class over an `array`), `Disk` (the
  file and its header), `LogModel` (writer and reader goroutines as interleaved steps), `LogDrain` (their progress), `FileLog` (the class).
* **The goroutine protocols.** `Dispatch` (the token-passing queue used by the hub and by every peer), `PeerConn` (one
  connection with Close, reader failure and ping failure racing), `HubLoop` (the hub's dispatcher and handler with a log that
  answers), `LoggedHub` (that hub and its file log as one system).
* **The hub.** `HubModel` (all handlers as functions on the hub's state), `Hub` (the same handlers as methods of
  `ClientPeer`, `Group` and `Hub` objects, each proved equal to its function), `HubFacts` (closed forms of what one handled packet
  does), `HubEffects` (what commands and domain messages mean to clients), `GroupSnapshot` and `Sessions` (what holds over every run of one hub). `Maps` and `Sums` are small helpers.
* **The cluster.** `Cluster` (a full mesh as a transition system), `Quiescence`, `Delivery` (messages for clients and domains),
  `GroupDelivery` (messages for groups), `Provenance`.
* **Incidents.** `Incidents` (runs from start-up that end where the code fails).
* **The archive.** `Archive` (log bytes to database rows, and the whole way from a logged hub's packets to database rows).

The specification of a stateful operation is a function on values (`Next`, `Handle`, `WriteRecord`, ...). Methods are proved
equal to it; the results below are proved about it, over every run.

## What the code does that its names and comments do not say

Each of these is a lemma; the condition under which the code does meet its promise is proved as well.

* A record of 65534 bytes is neither refused nor stored: the 16-bit sum of its length and two wraps to zero
  (`Blocks.WriteIntactOrRefused`, `Blocks.WrappedLengthIsNotRefused`).
* A process that stops between the writes of the catching-up reset leaves a header whose read index is ahead of its write
  index; after reopening, the reader fails with the lock held (`LogModel.ReopenInsideGet`, `LogModel.StopInsideResetSticks`).
* The error answer for a message the log refuses goes to the packet's response channel, also when that is nil. The hub's own
  Offline packets have none, so one with more than 124 targets stops the dispatcher for good; the exact condition is on the
  16-bit record length (`HubLoop.BigOwnOfflineStalls`, `Dispatch.StallIsForGood`). A client that writes to 125 clients unknown to
  its hub's location table and leaves gets it there (`Incidents.TalkativeClientStops`).
* A Loc message for a client that has left dereferences a nil peer (`Quiescence.CrashCondition`). Two hubs, one
  message and a quick departure are enough (`Incidents.LateLocCrashes`).
* `DelSession` returns early when the session exists, so sessions are never deleted (`Sessions.DelSessionDoesNothing`,
  `Sessions.SessionsOnlyGrow`).
* The session of a client that wrote first names its own hub, so when it leaves, the hub of the client it wrote to is not told
  through that session (`Sessions.WriterLeavesOwnHubIsTold`); the other direction works (`Sessions.ReaderLeavesWriterIsTold`).
* `MemCount` is not the number of members: a repeated join counts twice (`GroupSnapshot.MemCountIsMembers`,
  `GroupSnapshot.RepeatedJoinCountsTwice`). The clean-up that relies on it can drop a group that still has members
  (`GroupSnapshot.CleanUpExactly`); from start-up, two clients and 1001 groups get it there (`Incidents.CleanUpLosesMember`).
* A failed ping after `Close` has won leaves the socket open for good (`PeerConn.PingFailureStrandsClose`).
* Types 4 to 7 report a length of 128 or more because the mask keeps bit 7, so broadcast addresses have no `Address` and do
  not survive printing and parsing (`Addresses.AccessorsInvertPack`, `Addresses.PrintParseRoundTrip`).
* The comment in wire/msg_group_inout.go speaks of at most 127 groups; the field carries 255 (`Wire.RoundTrip`).

## Model

| member | source | states |
|---|---|---|
| Bytes.PutInjective | wire/common.go:271-299 | two values have the same little-endian bytes exactly when they agree modulo the width |
| Bytes.LittleEndian | wire/common.go:271-299 | byte k of a written number is its k-th digit to the base 256, least significant first |
| Addresses.NewAddr | wire/common.go:76-91 | the array filled in place is the packed form: type and length byte, domain, device, address, zero padding; more than 26 bytes is the overflow error |
| Addresses.ShiftMask | wire/common.go:166-173 | the shift and the mask of the source, on eight bits, are Type and Len as used everywhere else |
| Addresses.ShiftOr | wire/common.go:83 | the shift and the or that build the first byte, in eight-bit arithmetic, are the packed form's first byte |
| Addresses.AccessorsInvertPack | wire/common.go:166-188 | the accessors give back what NewAddr was given; Address does so exactly below type 4 and panics exactly from type 4 on |
| Addresses.PackInjective | wire/common.go:76-91 | two packed addresses are equal exactly when type (modulo 8), domain, device and address are: a sound map key |
| Addresses.AtoiItoa | wire/common.go:126-128 | reading a printed decimal gives the number back |
| Addresses.AtoiIs | wire/common.go:126-128 | Atoi with its error ignored: the decimal value of the digits after an optional sign, cut off at the ends of the 64-bit range, and zero for nothing or for a stray character |
| Addresses.SplitJoin | wire/common.go:121-128 | splitting at slashes with a limit undoes joining when only the last part may hold slashes |
| Addresses.ParseFails | wire/common.go:121-128 | parsing fails exactly for fewer than four slashes, or for more than 26 bytes behind the fourth |
| Addresses.PrintsAs | wire/common.go:190-196 | the printed form letter by letter: /c, /s or /g with domain, device and address, /b with the domain only |
| Addresses.PrintParseRoundTrip | wire/common.go:121-196 | ParseAddr(String(a)) is a, exactly for addresses of type 0 to 3 with length at most 26 and zero padding |
| Addresses.NewAddrRoundTrip | wire/common.go:76-196 | what NewAddr built survives printing and parsing exactly for types 0 to 3, slashes in the address included |
| Wire.HeaderConsumes | wire/message.go:60-81 | a header decoded from any bytes consumed exactly 74 of them, although each address read may be short |
| Wire.BodyKind | wire/message.go:146-175 | a decoded body is of the kind its command asks for, with counts and lengths that fit their fields |
| Wire.BodyCovers | wire/message.go:117-132 | re-encoding a decoded body gives the consumed bytes, padded with zeros only where the reader ran dry |
| Wire.ExactBodyCovers | wire/msg_chat_req.go:15-42 | for login-ack, chat, chat-resp, kill and the empty bodies, re-encoding gives exactly the consumed bytes |
| Wire.DecodeThenEncode | wire/message.go:60-143 | whatever bytes arrive, a decoded message is well formed and re-encodes to what was consumed, at least 74 bytes |
| Wire.GroupInOutRoundTrip | wire/msg_group_inout.go:20-54 | group commands round trip for up to 255 groups |
| Wire.OfflineRoundTrip | wire/msg_offline.go:14-55 | offline messages round trip for up to 65535 targets |
| Wire.LocRoundTrip | wire/msg_loc.go:13-40 | locating messages round trip |
| Wire.ChatRoundTrip | wire/msg_chat_req.go:15-42 | chat messages round trip for strings below 2^32 bytes |
| Wire.ChatRespRoundTrip | wire/msg_chat_resp.go:23-44 | chat responses round trip |
| Wire.LoginAckRoundTrip | wire/msg_login_ack.go:14-35 | login acknowledgements round trip |
| Wire.RoundTrip | wire/message.go:118-175 | Decode(Encode(m) ++ rest) is (m, rest) exactly when the body matches the command and its counts and lengths fit |
| Wire.PrefixFree | wire/message.go:118-143 | no encoding is a proper prefix of another |
| Wire.StreamRoundTrip | peer/peer.go:169-187 | the receive loop over concatenated encodings, with less than a header trailing, yields exactly those messages |
| Wire.DecodeAllBounded | peer/peer.go:169-187 | on arbitrary bytes the receive loop ends with at most one message per 74 bytes, all well formed |
| Wire.BodyDecodesWhen | wire/message.go:117-175 | for every command and any bytes, exactly when the body decodes: addresses alone never fail, an address list only when the reader is empty before its last one |
| Wire.MakeEmptyRespMessage | wire/message.go:188-200 | a response swaps the two ends, acknowledges the sequence number and is itself a message that round trips |
| Wire.HeaderLayout | wire/message.go:84-105 | the header's six fields lie at bytes 0, 32, 64, 68, 72 and 73, the body starts at 74 |
| Wire.CommandNumbers | wire/message.go:8-32 | the command number of every kind of body |
| Wire.ChatLayout | wire/msg_chat_req.go:28-42 | a chat is its type and two strings, each behind its four-byte length |
| Wire.AnswerLayout | wire/msg_chat_resp.go:35-44 | where the parts of a chat response and a login acknowledgement lie |
| Wire.GroupInOutLayout | wire/msg_group_inout.go:41-54 | direction, one-byte count, then the groups, 32 bytes each |
| Wire.OfflineLayout | wire/msg_offline.go:38-55 | who left, notice byte, two-byte count, then the targets, 32 bytes each |
| Wire.HubMessageLayout | wire/msg_loc.go:28-40 | where the parts of the locating, kill and offline-notice messages lie |
| WireIO.Writer.WriteAddrs | wire/msg_offline.go:49-53 | the address loop appends the encoding of the whole list |
| WireIO.Writer.EncodeMessage | wire/message.go:135-143 | writing header and body in sequence appends exactly Encode(m) |
| WireIO.Reader.ReadAddr | wire/common.go:154-157 | a short read pads with zeros and is an error only when nothing was left |
| WireIO.Reader.ReadGroups | wire/msg_group_inout.go:26-36 | the appending loop reads what the specification of a counted list says, and fails when it does |
| WireIO.Reader.ReadTargets | wire/msg_offline.go:26-34 | the slice filled by index holds what the specification of a counted list says |
| WireIO.Reader.DecodeMessage | wire/message.go:118-132 | decoding field by field returns what Decode returns and leaves the bytes it leaves |
| WireIO.ReceiveFrame | peer/peer.go:169-187 | the loop over one frame ends and returns the messages of DecodeAll |
| Blocks.UnpackSealed | filelog/filelog.go:92-129 | the bytes of a block determine its records, whatever stale bytes lie behind them |
| Blocks.HoldsUnique | filelog/filelog.go:38-44 | a block holds one list of records only |
| Blocks.ResetHolds | filelog/filelog.go:121-125 | after reset a block holds nothing, stale bytes notwithstanding |
| Blocks.WriteIntactOrRefused | filelog/filelog.go:74-90 | a write appends the record intact or refuses, exactly when the length is at most 65533 or its wrapped sum still exceeds the space |
| Blocks.WrappedLengthIsNotRefused | filelog/filelog.go:78-81 | 65534 bytes into an empty block are accepted and not stored |
| Blocks.WriteAcceptsIff | filelog/filelog.go:74-90 | up to 65533 bytes, a write succeeds exactly when two length bytes and the record fit, and then the block holds one record more |
| Blocks.WriteNeedsMode | filelog/filelog.go:74-77 | a write is refused for its mode exactly on a block that is not in write mode |
| Blocks.ReadNeedsMode | filelog/filelog.go:92-95 | a read is refused for its mode exactly on a block that is not in read mode, which it leaves as it is |
| Blocks.ReadNext | filelog/filelog.go:92-114 | one read returns the next record, or reports an empty block for an empty record, and moves past it either way |
| Blocks.Block.Write | filelog/filelog.go:74-90 | the in-place write does what the function on values does, and a refused one changes nothing |
| Blocks.Block.Read | filelog/filelog.go:92-114 | the in-place read does what the function on values does |
| Blocks.Block.ResetBlock | filelog/filelog.go:121-125 | the in-place reset does what the function on values does |
| Blocks.ReadSlots | filelog/filelog.go:276-293 | reading a sealed block slot by slot gives its records in order, nil for empty ones |
| Disk.HeaderWrite | filelog/filelog.go:314-336 | an index written to the header is read back modulo 2^32, and the other index is untouched |
| Disk.HeaderWriteKeepsBlocks | filelog/filelog.go:215-237 | writing the header changes no block |
| Disk.BlockWrite | filelog/filelog.go:215-223 | a block written at the write index extends the unread blocks by exactly itself |
| LogModel.AppendKeeps | filelog/filelog.go:215-237 | appendBlock moves the open block's records to the file and keeps the invariant and the queue |
| LogModel.GetKeeps | filelog/filelog.go:249-275 | getBlock, with or without the catching-up reset, moves one block to the reader's hands and keeps the rest |
| LogModel.StoreAccepts | filelog/filelog.go:188-198 | after the space check or the flush, a record is taken exactly when it is at most 4092 bytes long |
| LogModel.StoreAnswers | filelog/filelog.go:74-81 | for records of every length, the answer is an error exactly when the 16-bit sum of length and two is over 4094, and the process panics only when that sum wraps to zero or one |
| LogModel.StepKeeps | filelog/filelog.go:182-309 | every step of writer and reader keeps the disk agreement, the open block and the queue |
| LogModel.LogRefinesFifo | filelog/filelog.go:182-309 | in every interleaving, records handed over, in the reader's hands, in the file and in the open block are the accepted records in order; accepted are the answered offers of at most 4092 bytes |
| LogModel.OpenEstablishes | filelog/filelog.go:154-173 | opening a good file starts with its unread records queued |
| LogModel.LogLife | filelog/filelog.go:154-309 | both together, over the whole life of a log |
| LogModel.AnnouncedBlockIsRead | filelog/filelog.go:239-260 | after nextBlock said yes, getBlock reads a whole sealed block and releases the lock |
| LogDrain.RoundDelivers | filelog/filelog.go:239-304 | one round of the read loop on a log with an unread block hands over exactly the records of the first one, and one block fewer is left |
| LogDrain.LogDrains | filelog/filelog.go:176-309 | from every state of the invariant, a bounded number of steps of the two loops, nothing new offered, hands over every record accepted: all acceptable ones ever offered, in order |
| LogDrain.NothingStays | filelog/filelog.go:154-309 | the same from any run over a good file, the records that were in it included |
| LogModel.ReopenBetweenSteps | filelog/filelog.go:154-168 | whenever the lock is free, reopening the file finds the same unread blocks |
| LogModel.ReopenInsideAppend | filelog/filelog.go:215-237 | a stop after any of appendBlock's writes loses at most the block being appended |
| LogModel.ReopenInsideGet | filelog/filelog.go:249-275 | a stop after any of getBlock's writes is recovered from, exactly unless it falls inside the reset of a file whose read index was not zero |
| LogModel.StopInsideResetSticks | filelog/filelog.go:257-272 | after such a stop the reopened reader fails and keeps the lock |
| FileLogs.FileLog.constructor | filelog/filelog.go:154-173 | the object starts as the model's open log |
| FileLogs.FileLog.Offer | filelog/filelog.go:188-190 | receiving a record is the model's step |
| FileLogs.FileLog.Tick | filelog/filelog.go:199-206 | the ticker case is the model's step |
| FileLogs.FileLog.AppendBlock | filelog/filelog.go:215-237 | appendBlock is the model's step, file bytes and counters included |
| FileLogs.FileLog.ResetOpen | filelog/filelog.go:195-206 | the reset after an append is the model's step |
| FileLogs.FileLog.Store | filelog/filelog.go:197-198 | the write that answers the caller is the model's step, with an error exactly when the block refused |
| FileLogs.FileLog.NextBlock | filelog/filelog.go:239-247 | nextBlock is the model's step |
| FileLogs.FileLog.GetBlock | filelog/filelog.go:249-275 | getBlock is the model's step, failing read and draining reset included |
| FileLogs.FileLog.Deliver | filelog/filelog.go:290-307 | the list handed to the subscriber holds the block's records |
| Dispatch.StepKeeps | hub/hub.go:194-273 | every step keeps: one token exactly while waiting, pending only while waiting, and the order of everything that entered |
| Dispatch.Safety | hub/hub.go:194-273 | the same over every run: processed, running, relayed, pending and passing are the kept items in order, received and queued are what entered |
| Dispatch.SendsNeverBlock | hub/hub.go:202-212 | the sends on the relay and done channels find room whenever a goroutine reaches them |
| Dispatch.Progress | hub/hub.go:194-273 | unless all is drained or a refused item had no response channel, some goroutine can move |
| Dispatch.StallOrigin | hub/hub.go:219-226 | a step stalls the queue exactly when the log refuses an item nobody waits for |
| Dispatch.StallIsForGood | hub/hub.go:220-226 | a stalled queue never takes another item |
| Dispatch.Drains | hub/hub.go:212-240 | without new items every schedule ends within an explicit number of steps |
| Dispatch.DrainedMeansDone | hub/hub.go:212-240 | once drained, everything that entered was received and everything kept was processed, in order |
| Dispatch.HandlerSendProceeds | hub/hub.go:369-373 | a handler that sends into the full queue is freed by the queue goroutine alone |
| Dispatch.Dispatcher.OnPacket | hub/hub.go:214-228 | the queue case of the select is receive, log and hand over or hold back, and keeps the invariant |
| Dispatch.Dispatcher.OnDone | hub/hub.go:229-238 | the done case passes the token to the first pending item or drops it |
| PeerConn.StepKeeps | peer/peer.go:191-335 | every step of callers, reader, writer, ping and queue goroutine keeps the race and queue invariants |
| PeerConn.ShutdownRaces | peer/peer.go:191-335 | connclosed is signalled at most once and never into a full channel, OnDisconnect runs at most once and never when Close won, the socket is actively closed only when Close won |
| PeerConn.WriterOrder | peer/peer.go:191-282 | messages are handed to the socket one at a time, in the order they entered outQueue, none skipped; the results passed on through done channels are the outcomes of those that asked for one, each once, in that order |
| PeerConn.IdleMeansWritten | peer/peer.go:191-299 | on a peer that stays connected nothing gets stuck: once nothing but new calls or a failure can happen, every pushed message was handed to the socket and every caller that asked has its outcome |
| PeerConn.CloseAfterEverythingBefore | peer/peer.go:197-210 | when the socket closes, exactly the messages queued before the close packet have been attempted |
| PeerConn.CloseGoesThrough | peer/peer.go:301-322 | once Close has won and unless a ping fails, some goroutine can always take a step towards closing the socket |
| PeerConn.CloseCompletes | peer/peer.go:191-322 | once Close has won, every schedule ends within an explicit number of steps; when it ends and no ping failed, the socket was closed exactly once, the signal sent, the queue goroutine gone, OnDisconnect not run |
| PeerConn.LossCompletes | peer/peer.go:191-335 | once a failed read or ping has won, every schedule ends within an explicit number of steps, with OnDisconnect run exactly once, the signal sent and the queue goroutine gone |
| PeerConn.FailedReadIsNoticed | peer/peer.go:325-335 | a failed read on a connected peer takes the connection with its next step |
| PeerConn.PingFailureStrandsClose | peer/peer.go:211-216 | a ping that fails after Close won: the socket is never closed, whatever happens next |
| PeerConn.Connection.Close | peer/peer.go:301-313 | Close wins exactly on a connected peer; then the close packet with its done channel enters outQueue behind what is there, at once or, when the queue is full, as soon as there is room; a losing call changes nothing |
| PeerConn.Connection.ConnectionClosed | peer/peer.go:325-335 | the winner signals once and runs OnDisconnect once, a loser does nothing |
| PeerConn.Connection.CloseConnect | peer/peer.go:316-322 | at the close packet the swap cannot fail: the socket is closed once and the signal sent |
| HubFacts.HandleReplies | hub/hub.go:317-458 | whichever of the five packet uses and whichever early return, a response channel is answered exactly once, and only it: with status 200, and the not-found error exactly for a message to a client that is not registered here or a group command from one that is not |
| HubFacts.HandleLinks | hub/hub.go:242-564 | any handled packet, of all five uses: the set of links changes only by the server registered or unregistered, a new link is empty, and every other link, like the hub's own queue, gains exactly what the closed forms LinkOut and QueueOut say |
| HubFacts.RegisteredServerIsReached | hub/hub.go:383-446 | a server just registered is sent what any other server would be, over a link that starts empty; one just unregistered is sent nothing |
| HubFacts.RecordFrame | hub/hub.go:275-315 | the bookkeeping before routing adds sessions, at most one location entry and at most one Loc message, and nothing else |
| HubFacts.RouteLinks | hub/hub.go:399-440 | a message is put on the link to j exactly when Forwards holds: never if it came from a server |
| HubFacts.RegisterFrame | hub/hub.go:317-335 | a registration replaces the client's entry, sends one Kill to every server, and changes nothing else |
| HubFacts.UnregisterFrame | hub/hub.go:337-381 | an unregistration removes the live connection, tells its groups and servers, and otherwise changes nothing |
| HubFacts.LogicFrame | hub/hub.go:448-539 | a command changes no link, no registration and answers nobody |
| HubEffects.OfflineTakenIn | hub/hub.go:497-514 | an Offline message for the hub: the location table loses exactly the client that left; with notice 1 each target registered here is pushed one notice, in order, on its connection, otherwise nobody; no registration, session or group changes |
| HubEffects.OfflineReopensSearch | hub/hub.go:399-440 | after it, the next message for that client from a client is put on every link |
| HubEffects.LocTakenIn | hub/hub.go:491-496 | a Loc message for the hub: the peer's location is overwritten, the target gets a session with it through that hub unless it had one, nothing else changes |
| HubEffects.GroupCommandTakenIn | hub/hub.go:461-490 | a group command for the hub: joins record, make and tell each listed group as often as it is listed, leaves strike off and tell those there, any other direction or an unregistered sender changes nothing |
| HubEffects.EmptyDestinationIsTheHub | hub/clent_peer.go:37-42 | a group command sent with an empty destination takes effect at the client's hub, for the client whose connection it came in on |
| HubEffects.DomainIsReached | hub/hub.go:549-555 | a message to a domain is pushed in one round to exactly the registered clients whose four domain bytes are the destination's |
| HubEffects.LinkMessagesDecode | hub/hub.go:294-376 | every message a handled packet puts on a link is decoded at the other end as it was, if what came in was well formed and at most 65535 sessions are told at once |
| HubObjects.ClientPeer.AddSession | hub/clent_peer.go:92-101 | a new session is stored, an existing one kept, and the result says which |
| HubObjects.ClientPeer.DelSession | hub/clent_peer.go:83-89 | it returns early when the session is there |
| HubObjects.ClientPeer.GetAllSessionServers | hub/clent_peer.go:103-113 | the loop builds the session peers by server, for any order of the map |
| HubObjects.Group.Turn | hub/group.go:39-62 | one turn of the loop: a post is pushed to every member, a join or leave updates map and counter |
| HubObjects.Hub.Broadcast | hub/hub.go:558-562 | the loop puts the message once on every link |
| HubObjects.Hub.SendToDomain | hub/hub.go:549-555 | the loop pushes to exactly the connections of the domain |
| HubObjects.Hub.RecordSession | hub/hub.go:275-291 | does what its function says to the peers' session maps |
| HubObjects.Hub.RecordLocation | hub/hub.go:294-315 | does what its function says to location map and links |
| HubObjects.Hub.HandleClientPeerRegistPacket | hub/hub.go:317-335 | does what its function says |
| HubObjects.Hub.HandleClientPeerUnregistPacket | hub/hub.go:337-381 | does what its function says, for any order of the maps walked |
| HubObjects.Hub.HandleServerPeerRegistPacket | hub/hub.go:383-389 | the server is in the table afterwards, over an empty link, whether or not it was before; every other server keeps its entry and link; one answer |
| HubObjects.Hub.HandleServerPeerUnregistPacket | hub/hub.go:391-397 | the server is out of the table, every other one keeps its entry and link; one answer |
| HubObjects.Hub.HandleRelayPacket | hub/hub.go:399-446 | does what its function says, on every branch and early return |
| HubObjects.Hub.HandleLogicPacket | hub/hub.go:448-539 | does what its function says, loops over groups and targets included |
| HubObjects.Hub.HandlePacket | hub/hub.go:242-273 | the switch over all five uses equals Handle, the function every cluster result is about |
| HubObjects.Hub.GroupTurn | hub/group.go:39-62 | a group's turn changes that group only |
| HubLoop.AnsweredExactlyOnce | hub/hub.go:194-458 | over every run, answers given on a channel plus its packets still inside are the packets that entered with it, log failures included |
| HubLoop.AnswersSay | hub/hub.go:214-458 | over every run, a channel is told status 200 once for each of its packets that was handled and status 100 once for each that the log refused, and nothing else |
| HubLoop.LogOrderIsHandlingOrder | hub/hub.go:214-273 | the log holds the kept messages in the order they entered; the tables are what handling them one at a time in that order makes of them |
| HubLoop.OwnPacketsEnter | hub/hub.go:354-375 | over every run, the packets handlers made for their own hub's queue are, in order, those that entered from inside and those the running handler still has to send |
| HubLoop.NoDeadlock | hub/hub.go:194-273 | unless drained or stalled, some goroutine of the hub can move, even when a handler waits on its own full queue |
| HubLoop.BigOwnOfflineStalls | hub/hub.go:214-228 | a hub's own Offline packet, with any number of targets, stalls it exactly when the 16-bit sum of its length and two exceeds 4094; up to 2044 targets, exactly when there are more than 124 |
| LoggedHub.LogFollowsHub | hub/hub.go:214-228 | over every run of hub and log together: each is where its own machine gets, and what the log accepted is, in order, the encodings of the messages the dispatcher kept |
| LoggedHub.WriteReturns | filelog/filelog.go:176-198 | a dispatcher waiting in Write is freed by at most six steps of the log, from wherever the writer is |
| GroupSnapshot.StepKeeps | hub/hub.go:242-539 | every handled packet and every turn of a group loop keeps the invariant and extends each group's outcome by exactly what is due |
| GroupSnapshot.RecordedIsMember | hub/hub.go:461-490 | over every run with new connections and at most 1000 groups, a current connection has g recorded exactly when g, caught up, maps its address to it |
| GroupSnapshot.OutcomeMeetsHistory | hub/group.go:39-62 | what a loop has pushed and is bound to push meets the hub's history of messages for it, one for one, in order |
| GroupSnapshot.BroadcastIsASnapshot | hub/hub.go:436-440 | each group message is pushed once, to every current connection that was a member when the hub handled it and to no other current one |
| GroupSnapshot.CleanUpExactly | hub/hub.go:476-487 | the clean-up above 1000 groups is harmless exactly when no other current client has the group recorded |
| GroupSnapshot.CountDrift | hub/group.go:49-56 | MemCount drifts from the number of members by repeated joins minus leaves of non-members |
| GroupSnapshot.MemCountIsMembers | hub/group.go:49-56 | for a group that starts empty, MemCount is the number of members exactly when the two balance |
| GroupSnapshot.RepeatedJoinCountsTwice | hub/group.go:50-52 | one client joining twice is counted twice |
| Sessions.SessionsPartition | hub/clent_peer.go:103-113 | getAllSessionServers partitions the session peers: every list non-empty, without duplicates, and exactly the peers behind that server |
| Sessions.OfflineConservesSessions | hub/hub.go:337-376 | the live connection's end sends one Offline per session server, by link or to the hub itself, and all target lists together hold each session peer exactly once |
| Sessions.ReplacedLeavesNoTrace | hub/hub.go:338-342 | an unregistration changes nothing exactly when the connection is not the live one |
| Sessions.SessionRecorded | hub/hub.go:275-291 | after a message between two clients, the reader's session names the server it came through and the writer's names the own hub, unless one was there |
| Sessions.ReaderLeavesWriterIsTold | hub/hub.go:275-376 | a client first written to from another hub that then leaves: that hub is sent an Offline naming the writer |
| Sessions.WriterLeavesOwnHubIsTold | hub/hub.go:275-376 | a client that wrote first and leaves: the Offline naming the reader goes to its own hub's queue, not to the reader's hub |
| Sessions.DelSessionDoesNothing | hub/clent_peer.go:83-89 | DelSession never changes a session map |
| Sessions.SessionsOnlyGrow | hub/clent_peer.go:82-101 | over every run, a connection that stays registered keeps all its sessions, each with the server first heard |
| Cluster.StepKeepsMesh | hub/hub.go:242-446 | every step of the mesh keeps: messages on links crossed none, messages on queues at most one |
| Cluster.LoopFree | hub/hub.go:399-446 | over every run of a full mesh no message crosses a second link |
| Quiescence.InternalStepsDecrease | hub/hub.go:242-446 | every delivery, handled packet and group turn lowers an explicit lexicographic measure |
| Quiescence.ClusterDrains | hub/hub.go:242-446 | no schedule of internal steps goes on for ever, Kill broadcasts, Loc replies and self-queued Offline packets included |
| Quiescence.QuietMeansEmpty | hub/hub.go:242-273 | when no internal step is left, links, group channels and the queues of live hubs are empty |
| Quiescence.CrashCondition | hub/hub.go:491-496 | handling a packet crashes a hub exactly when it is a Loc message to the hub for a target that is not registered |
| Incidents.LateLocCrashes | hub/hub.go:294-315 | from start-up, for any two servers and two clients: a client writes to another hub's client and leaves before the Loc answer arrives, and its hub dereferences a nil peer |
| Incidents.TalkativeClientStops | hub/hub.go:214-376 | from start-up: a client writes to n unknown clients and leaves; its hub's dispatcher then stops for good exactly when the wrapped record length does not fit, up to 2044 clients exactly when n is over 124 |
| Incidents.CleanUpLosesMember | hub/hub.go:461-490 | from start-up: one client joins n groups, another leaves one; the first still has it recorded, and the hub has dropped it, exactly when n is over 1000 |
| Delivery.StepKeepsCount | hub/hub.go:399-446 | every step keeps: a client's message has at most one chance left to be pushed at each hub |
| Delivery.DeliveredAtMostOnce | hub/hub.go:399-446 | over every run each hub makes at most one round of pushes for a client's message to a client or a domain; one for a client goes to a single connection with that address (messages to groups: GroupDelivery) |
| Delivery.DeliveredExactlyOnce | hub/hub.go:410-429 | if the destination stays registered at exactly one hub and the sender's hub's entry for it is absent or right, it is pushed exactly once, there, by the direct or the broadcast route |
| Delivery.ReplyMakesRouteDirect | hub/hub.go:294-315 | the Loc reply to a first message makes the sender's hub put later messages for that client on the link to its hub and on no other |
| Delivery.SecondLoginIsTold | hub/hub.go:317-335 | a second login pushes Kill to the first connection, here and at any hub the broadcast reaches; here the new connection takes the old one's place in the table, a remote hub keeps the old one |
| GroupDelivery.StepSpread | hub/hub.go:399-446 | every step of the mesh keeps: a client's message to a group has at most one chance left to be posted at each hub |
| GroupDelivery.GroupPostedAtMostOnce | hub/hub.go:430-440 | over every run, what waits on a group's channel and what its loop has broadcast hold a client's message at most once, at every hub |
| GroupDelivery.GroupPostedExactlyOnce | hub/hub.go:399-440 | at each hub that has the group when it handles the message: once used up, it is posted exactly once, and broadcast exactly once when the group's loop has caught up |
| Provenance.HandleLocation | hub/hub.go:294-499 | a location entry after a packet was there before, or was learnt from a relayed message or a Loc message |
| Provenance.LocationProvenance | hub/hub.go:294-329 | over every run with clients that register before sending, location[c] names another hub at which c registered at some earlier point |
| Archive.CollectRows | hub/hub.go:564-603 | the loop builds the in-order chat and group rows of the decodable messages, and panics exactly on a nil buffer or an address that cannot be sliced |
| Archive.SaveMessagesToDb | hub/hub.go:564-619 | chats are stored first, group chats only after; a failed store call ends the batch with what was stored before |
| Archive.PanicsWhen | hub/hub.go:567-601 | a batch ends the process exactly when a buffer is nil or a chat for a client or group has an address that cannot be sliced; nothing of it is stored then |
| Archive.FailuresLeave | hub/hub.go:603-616 | what failing store calls leave: chats stored wholly or not at all, group chats only behind them, success exactly when no needed call fails |
| Archive.ChatIsStored | hub/hub.go:577-616 | one logged chat to a client or group appends one row, with sender's and receiver's domain and address as NewAddr was given them, to the table of its kind and nothing to the other |
| Archive.RowHolds | hub/hub.go:577-601 | the same for any list of messages: where the row of message i lies and what it holds |
| Archive.RowsCounted | hub/hub.go:577-601 | there is one row for each chat to a client, one for each to a group, and no other |
| Archive.ReadableEncodings | hub/hub.go:214-219 | encodings written to the log come back as the same messages: none empty, none undecodable |
| Archive.SaveAllIsOneBatch | hub/hub.go:564-619 | how the stream of buffers is cut into blocks makes no difference to the rows |
| Archive.RowsAreFilters | hub/hub.go:564-615 | what a log delivers becomes exactly the chat and group rows of a first part of the logged messages, in order |
| Archive.EndToEnd | hub/hub.go:214-228 | over every joint run of hub and log: the rows are the chat and group rows of a first part of the messages in the file at the start, then those the hub kept, in the order it handles them |
| Archive.EveryRowArrives | hub/hub.go:99-228 | from any moment of a joint run, a bounded number of steps of the log's two loops leads to tables with the rows of every message in the file at the start and every one the hub kept |

## Premises

They are part of the statements above; this list says why they are there.

* Records offered to the log are at most 65533 bytes (`LogModel.Admissible`), the largest length the 16-bit sum does not wrap at.
* Block indices stay below 2^32 where recovery is claimed, because the header holds 32 bits; disk operations succeed.
* `GroupSnapshot`: a registering connection object is a new one, and there are at most 1000 groups.
* `Delivery.DeliveredExactlyOnce`: links lose nothing, and no hub the message needs has stopped (its queue is used up).
* `Provenance`: clients send only chats and group commands, after registering at that hub; messages injected over HTTP carry the
  hub's own address as their origin and would break the claim.
* `GroupDelivery.GroupPostedExactlyOnce`: the hub has the group when it handles the message, and at most 1000 groups when it
  handles a packet (otherwise the clean-up can drop a group with the message in it).
* `Archive.EndToEnd` and `Archive.EveryRowArrives`: the messages that entered have well-formed bodies (every decoded message has, `Wire.DecodeAllBounded`),
  encodings of at most 65533 bytes and, where a row is made, addresses of at most 26 bytes.
* `HubEffects.DomainIsReached`: clients are filed under their own addresses, as registration does it.
* `PeerConn`: whoever passes a done channel receives from it.

## Left out

* HTTP and websocket handling, URLs, digests, TLS, flags, configuration, signals and logging: ingress is a nondeterministic step.
* The HTTP message injection and the JSON queries, including the bodies of the two query responses.
* MySQL, Redis and the memory cache: a store is two append-only tables whose calls succeed or fail.
* Real time: tickers and pings are nondeterministic steps, deadlines and CreateAt are absent, the login time is a parameter.
* autoSeq and the sequence numbers a writer puts into shared headers: they are not unique in general and nothing here needs them.
* The order of messages from one socket: each decoded message gets its own goroutine, so order is claimed from the queue onwards.
* PushMessage on a closed peer, which blocks on a nil channel, and the clean-up loop of a closed peer, which does not advance.
* Blocking on a full group channel: group channels are unbounded sequences in the model.
* Reconnecting a peer object (SetConnection on a used peer) and the dialling side of server links: a mesh is complete and fixed.
* Requests to register or unregister without a response channel over a replaced connection: callers always pass one there.
* Loss on links and stopped hubs: a hub that dereferenced a nil peer takes no further packets, its peers are not told.
* Disk faults: every write, truncation and read inside the file succeeds; only a read past the end fails.
* Addr.Full, the Ascll string helpers and net.go: easy members nothing else uses.
- Cluster.LoopFree: a hub's dispatcher is one queue there, packets a hub sends to itself join it when the handler ends, and packets carry no response channel; HubLoop models the dispatcher in full for one hub.
- Delivery.DeliveredExactlyOnce: counts pushes into the destination's connection; the way from there to its socket is PeerConn.WriterOrder.
- HubObjects.Group.Turn: peers in a group's tables are identified by their connection value, not by object reference.
- GroupSnapshot.BroadcastIsASnapshot: a connection replaced between join and broadcast may still be pushed to; the claim is about current connections.
- PeerConn.Connection.Close: on a full outQueue it returns with the send under way, as the goroutine that waits there; steps between its test, swap and send are PeerConn's.
- LoggedHub.WriteReturns: for messages whose encodings are at most 65533 bytes; a longer one can make the log's writer panic (LogModel.StoreAnswers).
