# Verification of the tunnel gateway's protocols

This project models the protocol code of the tunnel gateway in Dafny and proves properties of the
model: the reverse tunnel between server and agents, the Guacamole codecs at both ends, WebSocket
framing, delta screen streaming, image streams, and the three event-loop proxies. Run
`dafny verify dfyconfig.toml` in this directory to check all of it.

## Structure

| files | what they model |
|---|---|
| `Results`, `Bytes`, `Decimal`, `Addresses`, `Sockets`, `Descriptors` | outcomes, network byte order, decimal numerals, IPv4 texts, stream sockets whose calls move as much as the kernel likes, descriptors |
| `TunnelCodec`, `TunnelWire`, `TunnelChannel` | the tunnel's frame format; sending under a lock with partial sends; receiving under any chunking; a connection as a queue of frames |
| `TunnelTables`, `AgentSessions` | the locked sections of the server and of the agent as methods of classes |
| `TunnelSystem` | server, agents, clients and targets as one state machine: any number of sessions, agents and reconnections, one step for each locked section or socket call of each thread |
| `TunnelSafety`, `TunnelSteps`, `TunnelHandlerSteps`, `TunnelServerSteps`, `TunnelReceiveSteps`, `TunnelAgentSteps`, `TunnelReaderSteps` | the invariant of that machine, stated for one session and one connection at a time, and the proof that each step keeps it |
| `TunnelTheorems`, `TunnelHistory`, `TunnelLostAck`, `TunnelEntries`, `TunnelLinks`, `TunnelIds` | what follows for every run; which steps touch the tables of server and agent; session ids from the counter |
| `TunnelExamples` | two runs, step by step |
| `GuacParser`, `GuacGrammar`, `GuacTheorems`, `GuacSession` | the gateway's streaming parser, a reader of the grammar, their agreement, the session loop |
| `Unicode`, `GuacBrowser`, `GuacLoop`, `GuacAgreement` | UTF-16 and UTF-8; the browser's codec, its index loops, and where it agrees with the gateway's |
| `Masking`, `WsFrames` | WebSocket frames in both directions, down to the bits of the masking key |
| `DeltaStream`, `DeltaCanvas` | the search for the changed rectangle; what is sent and what the canvas then shows |
| `ImageStream`, `Base64`, `RdpPng` | img/blob/end streams and the browser's reassembly; chunked base64; regions as PNG images |
| `EpollProxy`, `TlsTables`, `TlsOrder`, `TlsEvents`, `TlsProxy`, `UdpProxy` | the event-loop proxies: tables, order of octets, and what one event does |
| `Heartbeat`, `MouseInput` | heartbeat and watchdog timing, reconnect waits; mouse and key events |

## Conventions

- Code that changes state step by step is a class or a method with loops, proved against functions
  on values; laws are then lemmas about those functions. Concurrent code is a state machine whose
  steps interleave freely.
- System calls are nondeterministic: `recv`, `send`, `splice`, `write` move any number of octets
  their documentation allows, may fail at any call, and clocks advance by any amount.
- `TunnelSystem` abstracts a connection's octet streams into queues of frames; `TunnelChannel`
  proves that octets, locks and partial sends behave as such a queue. Each octet carries where
  it was read, so that isolation can be stated; the program never looks at that mark. The fields
  `lost`, `skipped`, `popped` and `acked` of a session are history only; `installed` also tells
  when a reader's socket must still be in the agent's table, and the `jammed` fields of a connection
  record that a send has failed.
- `TunnelSystem` gives out an id only if nothing alive carries it. `TunnelIds` has the program's own
  counter instead and proves that its runs are runs of `TunnelSystem` as long as no session outlives
  the round of 2^32 - 1 ids, and without any condition for the first 2^32 - 1 sessions.
- Once a send has failed on one direction of a connection, later sends in that direction fail too,
  as they do on a TCP socket that has been reset. `TornFrameDesynchronizes` shows what would
  happen otherwise.
- Strings of the gateway are sequences of bytes written as characters. A browser string is a
  sequence of UTF-16 code units, surrogates included, as `Unicode` represents them.

## Where the code and its documentation disagree

- `src/tunnel_agent.cpp:54` says that a successful connection resets the reconnect state, but
  the delay is never reset; `ReconnectWaits` follows the code.
- `frontend/src/utils/guac.ts:17-20` explains why lengths are counted in bytes, but `parse` counts
  UTF-16 code units, so texts with other than ASCII characters are not read back
  (`GatewayToBrowser`, `NonAsciiIsLost`).
- `include/core/guac_parser.h:22-25` describes any sequence of elements as an instruction; the
  parser drops empty elements before the opcode and refuses an instruction with nothing else.
- `frontend/src/hooks/useGuacamole.ts:191-198` hands the blobs of a terminal session to the terminal
  in the last branch of a switch that has a branch for blobs above it, so the terminal is given
  nothing (`TerminalGetsNothing`).
- `src/tls_proxy.cpp:291-341` leaves a client whose handshake has waited for output watched for
  output only (`ClientMayStall`), so what it sends afterwards is not noticed by its own event.

## Model

| member | source | states |
|---|---|---|
| TunnelTheorems.TargetGetsPrefix | src/tunnel_agent.cpp:365-393 | in every run, what a session's target has received is a prefix of what its external client has sent, however agents and connections come and go, provided that no send succeeds in a direction of a connection after one has failed there |
| TunnelTheorems.ForwardConserves | src/tunnel_server.cpp:758-771 | while the agent stays registered on the connection that carried OPEN and holds the session, written ++ in the agent's hand ++ queued ++ in the relay thread's hand is exactly what the client has sent |
| TunnelTheorems.ReverseConserves | src/tunnel_server.cpp:350-387 | while the session lives at both ends, what the target has sent splits exactly into octets dropped before the client was attached, octets written to the client, and octets in flight; nothing is written before the client is attached |
| TunnelTheorems.SessionsAreIsolated | src/tunnel_server.cpp:350-387 | in every run, every octet written to a session's target was read from that session's own client, and every octet written to its client from its own target; that the ids of the counter allow this is `CounterIsolates` |
| TunnelTheorems.DataFollowsInstall | src/tunnel_agent.cpp:345-355 | a DATA frame anywhere on its way to an agent belongs to a session that the agent has installed and acknowledged, and whose OPEN_ACK the server has taken |
| TunnelTheorems.AttachFollowsAck | src/tunnel_server.cpp:743-748 | a table entry has a client socket only after the session's own OPEN_ACK has arrived, and the socket is the session's own |
| TunnelTheorems.WaitersAndTables | src/tunnel_server.cpp:722-732 | an id is pending only while its waiter is unresolved and waiting; a waiter that timed out leaves its id in neither pending_open_ nor sessions_ |
| TunnelTheorems.RunKeepsInv | src/tunnel_server.cpp:247-445 | the protocol invariant holds in every state of every run of the two-node system |
| TunnelTheorems.InstallReplacesNothing | src/tunnel_agent.cpp:345-352 | in every run the agent never overwrites an entry of sessions_, so it never destroys a joinable reader thread there |
| TunnelIds.CounterSatisfiesGuard | src/tunnel_server.cpp:438-445 | the machine in which a thread takes the counter's next id and looks at no table is a run of the guarded machine, if whenever an id comes round again nothing carries it any more |
| TunnelIds.ShortRunsNeedNothing | src/tunnel_server.cpp:438-445 | in runs that begin at most 2^32 - 1 sessions this condition holds of itself |
| TunnelIds.CounterIsolates | src/tunnel_server.cpp:438-445 | so with the counter's ids no octet of one session reaches another session's target or client |
| TunnelIds.CounterConserves | src/tunnel_server.cpp:438-445 | and prefix and conservation hold in both directions |
| TunnelIds.NewIdIsUnused | src/tunnel_server.cpp:438-445 | in a reachable state an id that has never been given out is carried by no table, queue or thread |
| TunnelHistory.RecordGrows | src/tunnel_server.cpp:334-348 | until an id is given out again, a promise is resolved at most once, all histories only grow at their ends, the home connection never changes, and nothing more is dropped once a client is attached |
| TunnelHistory.OpeningOrder | src/tunnel_agent.cpp:345-355 | in every run a successful waiter was preceded, in this order, by the agent installing the session, sending OPEN_ACK, and the server taking that OPEN_ACK while the waiter was registered |
| TunnelHistory.AttachOrder | src/tunnel_server.cpp:735-748 | in every run an attached client was attached by its own thread after the server had taken the session's OPEN_ACK |
| TunnelHistory.StepHistory | src/tunnel_server.cpp:309-403 | every single step either continues a session's record, each flag rising only by the event that causes it, or gives out an unused id afresh |
| TunnelLostAck.LostAckIsForever | src/tunnel_server.cpp:706-716 | an OPEN_ACK taken before the waiter has registered itself is lost for good: until the id is reused the waiter is never woken, no client octet is read or delivered and no client is attached |
| TunnelLostAck.AckDecides | src/tunnel_server.cpp:334-348 | taking an OPEN_ACK wakes the session's waiter if and only if the waiter is registered at that moment |
| TunnelLostAck.RunKeepsAckOnce | src/tunnel_agent.cpp:345-360 | in every run at most one OPEN_ACK of a session is ever on its way, on the connection that carried OPEN |
| TunnelExamples.AckCanBeLost | src/tunnel_server.cpp:706-716 | a run of fourteen steps in which the server takes an OPEN_ACK before its waiter is registered, and the wait then times out |
| TunnelExamples.AnOctetArrives | src/tunnel_server.cpp:758-771 | a run of twenty steps in which an octet read from a client is written to its target |
| TunnelCodec.HeaderRoundTrip | src/tunnel_protocol.cpp:47-98 | a serialized header is accepted if and only if its magic and length are in order, and then read back field by field; otherwise the first failing check decides the error |
| TunnelCodec.HeaderOctets | src/tunnel_protocol.cpp:11-45 | the sixteen header octets one by one: magic, type, flags, two reserved octets, session id and payload length, the most significant octet first |
| TunnelCodec.TypeOctets | include/core/tunnel_protocol.h:73-92 | type and flags octets of the frames that the program makes |
| TunnelCodec.OpenOctets | src/tunnel_protocol.cpp:136-148 | the payload of an OPEN: four address octets and two port octets |
| TunnelCodec.ParseOfSerialize | src/tunnel_protocol.cpp:100-116 | parsing a serialized frame gives the frame back, whatever octets follow it |
| TunnelCodec.SerializeOfParse | src/tunnel_protocol.cpp:11-45 | serializing a parsed frame gives back the octets that were read |
| TunnelCodec.HelloRoundTrip | src/tunnel_protocol.cpp:120-130 | a HELLO can be made if and only if the agent id has at most 255 octets, and then carries it exactly |
| TunnelCodec.OpenRoundTrip | src/tunnel_protocol.cpp:136-148 | an OPEN can be made if and only if the target, up to any NUL, is the text of an IPv4 address; the agent gets that very text and port, and reads the same address from it |
| Addresses.FromTextExactly | src/tunnel_protocol.cpp:140-142 | the character-by-character scanner of `inet_pton` accepts a text as an address if and only if it is what `inet_ntop` prints for that address |
| TunnelCodec.Serialize | src/tunnel_protocol.cpp:11-45 | the buffer filled field by field is the frame's wire form, which the two parsers invert |
| TunnelWire.RecvFrame | src/tunnel_agent.cpp:263-294 | under any chunking by recv, exactly the next frame and none of the octets after it |
| TunnelWire.RecvLoop | src/tunnel_server.cpp:449-480 | repeated reading delivers exactly the frames that the stream is cut into |
| TunnelWire.SendFrame | src/tunnel_agent.cpp:298-311 | under any partial sends, the whole frame or, on failure, a proper prefix of it |
| TunnelWire.DeframeOfStream | src/tunnel_agent.cpp:273-294 | cutting a stream into frames returns exactly the frames that were joined, for any octets after them |
| TunnelWire.StreamOfDeframe | src/tunnel_agent.cpp:273-294 | joining the frames that were cut off, plus the rest, gives back the stream |
| TunnelWire.RunsAreFramed | src/tunnel_server.cpp:484-511 | with any number of senders and arbitrary partial sends, the octets on a connection are whole frames plus at most a prefix of the lock holder's frame |
| TunnelWire.TornExactly | src/tunnel_agent.cpp:298-311 | in every run a direction of a connection is torn if and only if some holder has given up after some but not all octets of its frame |
| TunnelWire.ReceiverGetsSentFrames | src/tunnel_agent.cpp:263-316 | at every moment of every run in which no send has failed inside a frame, the far end reads exactly the completed frames in order |
| TunnelWire.TornFrameDesynchronizes | src/tunnel_agent.cpp:298-311 | a run in which a send fails inside a frame and a later one succeeds, after which the far end reads a frame that nobody sent |
| TunnelChannel.ChannelIsQueue | src/tunnel_agent.cpp:263-316 | in every run of senders and receive loop in which no send has failed inside a frame, a connection is a queue of frames: the step that gets out the last octet of a frame appends it, `recv_frame` takes the first, every other step changes nothing |
| TunnelChannel.ChannelCarriesQueue | src/tunnel_server.cpp:484-511 | so the message queues of `TunnelSystem` are what the octets of such a connection are cut into, step by step |
| TunnelChannel.RunsAreConsistent | src/tunnel_server.cpp:449-480 | the frames taken so far and the frames on their way are together those that have gone out whole, in order |
| TunnelTables.IdsDistinctInWindow | src/tunnel_server.cpp:438-445 | session ids are never zero and two calls return the same id if and only if their distance is a multiple of 2^32 - 1 |
| TunnelTables.TunnelServer.GenerateSessionId | src/tunnel_server.cpp:438-445 | the counter skips zero after wrapping around, so the k-th call returns (k mod (2^32 - 1)) + 1 |
| TunnelTables.IdsCountUp | src/tunnel_server.cpp:438-445 | ids go up by one and start again at 1 after 2^32 - 1 |
| AgentSessions.TunnelAgent.Install | src/tunnel_agent.cpp:345-352 | the new session owns its socket; if it replaces an entry, that entry's socket is closed and its joinable thread ends the process, and only then |
| AgentSessions.TunnelAgent.TargetOf | src/tunnel_agent.cpp:365-376 | data of a session goes to an open socket that no other session owns, and data of an unknown session nowhere |
| AgentSessions.TunnelAgent.CloseSession | src/tunnel_agent.cpp:400-422 | of the main thread and the reader thread, whoever comes first closes the session's socket, and only that one |
| AgentSessions.TunnelAgent.CleanupConnection | src/tunnel_agent.cpp:159-180 | afterwards no session and no target socket is left, each socket having been closed once |
| TunnelTables.TunnelServer.UnregisterAgent | src/tunnel_server.cpp:405-431 | a session is in the table afterwards if and only if it was before and belongs to another agent, unchanged; the agent id leaves agents_ whoever holds it |
| TunnelEntries.DropSessionsExactly | src/tunnel_server.cpp:412-424 | in the two-node system the same: after the step no entry of that connection's agent is left and every other entry is as before |
| TunnelEntries.EntriesLeave | src/tunnel_server.cpp:405-436 | in every run an entry leaves sessions_ if and only if the step is one of its own thread's, a CLOSE for it, a failed write to its client, the unregistration of its own agent, or stop; it is put in and changed by its own thread only |
| TunnelEntries.WaitersAndRoutesFollow | src/tunnel_server.cpp:269-284 | in every run a waiter is registered by its own thread and leaves by it, by its own OPEN_ACK or by stop; an agent's route is set by its own registration and removed by a connection of that agent or by stop |
| TunnelLinks.DescriptorsClose | src/tunnel_server.cpp:269-284 | in every run the server closes a connection's descriptor exactly when a newcomer for the same agent registers or it stops while that connection is registered; it is never open again |
| TunnelLinks.SessionsAreJoined | src/tunnel_agent.cpp:400-422 | in every run a session comes into the agent's table by its installation alone and leaves it exactly by a CLOSE, a failed OPEN_ACK or write, its reader's end or the loss of the connection; the main thread waits for exactly the reader of the session it has taken out, until that reader has ended |
| TunnelTables.TunnelServer.HandleOpenAck | src/tunnel_server.cpp:334-348 | resolves only the promise registered under the frame's own id and removes just that entry |
| TunnelTables.TunnelServer.SetSessionExternalFd | src/tunnel_server.cpp:187-193 | attaches the socket to that session only, and reports whether the session is still there |
| TunnelTables.TunnelServer.RegisterAgent | src/tunnel_server.cpp:269-284 | a newcomer takes over the id, and the connection it replaces is closed |
| TunnelTables.TunnelServer.FailPending | src/tunnel_server.cpp:121-130 | stop fails every registered waiter that is still unresolved and empties the table |
| GuacParser.FeedConcat | src/guac_parser.cpp:28-32 | feeding a + b is feeding a and then, unless it throws, b |
| GuacParser.GuacParser.ProcessByte | src/guac_parser.cpp:56-122 | one byte moves the fields exactly as the abstract machine moves, including the state left behind by every throw |
| GuacParser.GuacParser.Feed | src/guac_parser.cpp:28-32 | a whole string, stopping at the first byte that throws |
| GuacParser.GuacParser.NextInstruction | src/guac_parser.cpp:126-137 | instructions come out in the order in which they were completed; none when the queue is empty |
| GuacParser.GuacParser.Reset | src/guac_parser.cpp:13-20 | the parser is as if newly made, with nothing waiting |
| GuacParser.Serialize | src/guac_parser.cpp:153-175 | refuses exactly the empty opcode; otherwise the length-prefixed text that the round-trip law inverts |
| GuacGrammar.ParserRefinesReader | src/guac_parser.cpp:56-122 | for every byte string the streaming parser throws if and only if the recursive-descent reader finds it malformed; otherwise its queue is the reader's list with leading empty elements dropped and its remaining state is that of a parser fed the unread tail alone |
| GuacGrammar.FeedInstruction | src/guac_parser.cpp:56-122 | from the start of any element, the machine does what the reader does with one instruction, including where it stands when the text breaks off |
| GuacGrammar.LengthErrors | src/guac_parser.cpp:60-84 | which error a length that has ended comes to: none, empty, 2^64 or more, or more than the capacity |
| GuacGrammar.ChunkingIsIrrelevant | include/core/guac_parser.h:41-46 | any chunking of a text gives the same outcome |
| GuacGrammar.TailIsSuffix | include/core/guac_parser.h:22-32 | the unread tail is the end of the text |
| GuacTheorems.RejectsExactly | src/guac_parser.cpp:62-81 | a text has a continuation to whole instructions if and only if the parser accepts it and it does not end inside a length that is already too large, which the parser notices only at the '.' |
| GuacTheorems.RoundTrip | src/guac_parser.cpp:153-175 | feeding any list of serialized instructions with non-empty opcodes gives back that list and leaves nothing behind |
| GuacTheorems.ReadAllAppends | include/core/guac_parser.h:22-32 | text that follows a document is read as if it followed the document's unread tail |
| GuacSession.Relay | src/guac_websocket.cpp:407-448 | the session loop handles exactly the instructions that the frame-by-frame specification gives, dropping a frame that throws together with everything the parser holds |
| GuacSession.HandlesTheText | src/guac_websocket.cpp:407-448 | when the frames' concatenation is well formed, exactly its instructions are handled, wherever the frame boundaries are |
| GuacSession.BadFrameIsContained | src/guac_websocket.cpp:412-418 | a frame that makes the text malformed costs its own instructions and the one under way; what came before has been handled and what follows is read afresh |
| GuacSession.EmptyFrameEnds | src/guac_websocket.cpp:410-411 | an empty frame ends the session: what came before has been handled, nothing after it is |
| GuacLoop.Parse | frontend/src/utils/guac.ts:23-57 | the index loops, negative lengths included, have after any number of turns the result that the machine of their variables has |
| GuacBrowser.ParseIntReads | frontend/src/utils/guac.ts:34 | `parseInt` reads a numeral with either sign after blanks and ignores what follows it |
| GuacBrowser.Blanks | frontend/src/utils/guac.ts:34 | the characters that `parseInt` skips, by code point |
| GuacLoop.LoopsFollowGrammar | frontend/src/utils/guac.ts:23-57 | if no length is negative the loops end within a turn for each character, with the instructions of the browser's lenient grammar |
| GuacLoop.EndsUnlessReturning | frontend/src/utils/guac.ts:27-48 | the loops end if and only if they never come back to a position |
| GuacLoop.EndsSoonOrNever | frontend/src/utils/guac.ts:27-48 | they end within a turn for each character or never |
| GuacLoop.NegativeLengthLoops | frontend/src/utils/guac.ts:34-41 | on the text 1.a,-4.; they never end |
| Unicode.Utf8LengthOfAscii | frontend/src/utils/guac.ts:15-22 | the byte length equals the string length if and only if the text is ASCII |
| Unicode.Utf8Examples | frontend/src/utils/guac.ts:15-22 | octets of characters of two, three and four octets (section 3 of RFC 3629) |
| Unicode.Utf8IsInjective | frontend/src/hooks/useGuacamole.ts:111-117 | octets decode to at most one string, so what the browser's parser gets is determined by what the gateway sent |
| GuacAgreement.AcceptedTextsAgree | frontend/src/utils/guac.ts:23-57 | on every ASCII text the gateway accepts, the browser finds the same instructions, plus an incomplete one if and only if the text breaks off right after a comma |
| GuacAgreement.WholeTextsAgreeExactly | frontend/src/utils/guac.ts:34-41 | on a text of whole instructions, which the gateway reads as octets and the browser as the decoded string, the two find the same instructions if and only if the text is ASCII |
| GuacAgreement.NonAsciiIsLost | frontend/src/utils/guac.ts:34-41 | the gateway's text of the instruction with opcode U+E9 is one instruction to the gateway and nothing to the browser |
| GuacAgreement.RawIsAssembled | frontend/src/utils/guac.ts:50-52 | the two lists have the same length and differ exactly at instructions that begin with an empty element |
| GuacAgreement.DanglingWaitsForLength | frontend/src/utils/guac.ts:30-53 | a text breaks off right after a comma if and only if it leaves the gateway's parser waiting for a length of which nothing has been read |
| GuacAgreement.BrowserReadsBack | frontend/src/utils/guac.ts:23-57 | a list of instructions that the browser has serialized is read back by it if and only if every element is ASCII |
| GuacAgreement.BrowserRoundTrip | frontend/src/utils/guac.ts:15-22 | in particular one instruction |
| GuacAgreement.GatewayToBrowser | frontend/src/hooks/useGuacamole.ts:111-117 | whatever list of instructions the gateway serializes, the browser gets it back from the decoded octets if and only if every element is ASCII |
| GuacAgreement.BrowserToGateway | src/guac_parser.cpp:28-32 | whatever list of instructions the browser sends, the gateway's parser gets it back in UTF-8 |
| GuacAgreement.SerializersEncodeAlike | frontend/src/utils/guac.ts:15-22 | for every instruction the browser sends the octets that the gateway's serializer makes of it |
| GuacAgreement.SerializersAgree | frontend/src/utils/guac.ts:15-22 | for ASCII content the two serializers produce the same text |
| GuacAgreement.ParsersAgreeOnTexts | frontend/src/utils/guac.ts:23-57 | the browser reads back any list of serialized ASCII instructions, as the gateway does |
| DeltaStream.FindDirty | src/guac_web.cpp:895-933 | none if and only if the frames are equal; otherwise a rectangle inside the frame that holds every changed pixel and has one on each of its four edges |
| DeltaStream.ScanRow | src/guac_web.cpp:911-919 | one changed row extends the column range to hold all its changed pixels and no farther |
| DeltaStream.DirtyIsUnique | src/guac_web.cpp:895-933 | only one rectangle has these properties |
| DeltaCanvas.DeltaStreamer.FlushDelta | src/guac_web.cpp:872-951 | a frame changes the remembered pixels and what has been sent as the specification says: skipped, whole, or the changed rectangle |
| DeltaCanvas.EncodeRect | src/guac_web.cpp:811-851 | the strided copy encodes exactly the rectangle's pixels, or falls back to the original text |
| DeltaCanvas.Crop | src/guac_web.cpp:821-826 | pixel (x, y) of the cut-out is pixel (rx + x, ry + y) of the frame |
| DeltaCanvas.FlushShows | src/guac_web.cpp:872-951 | with a lossless codec, flushing a frame leaves the canvas showing that frame and the gateway remembering it |
| DeltaCanvas.CanvasShowsLastFrame | src/guac_web.cpp:872-951 | over every sequence of frames of any sizes, with skips, size changes, the 75% rule and the full-width shortcut, the canvas shows the last decodable frame |
| DeltaCanvas.ChangeIsSent | src/guac_web.cpp:936-951 | from three quarters of the area on, and when the changed rectangle is a full-width strip at the top, the original goes out at (0, 0); otherwise the rectangle, encoded anew unless the encoder fails, at its place |
| DeltaCanvas.UncomparedIsSent | src/guac_web.cpp:872-890 | what cannot be decoded goes out as it is and is not remembered; the first frame and a frame of a new size go out whole; nothing and an unchanged frame send nothing |
| DeltaCanvas.FailedEncodeShows | src/guac_web.cpp:841 | when the encoder fails on the changed rectangle, flushing a frame leaves the canvas right if and only if the frame is sent whole anyway (first frame, new size, nothing or 75% changed) or looks the same when shifted to the rectangle's corner |
| DeltaCanvas.FailedEncodeShowsWrong | src/guac_web.cpp:841 | two frames of two pixels after which the canvas shows a black pixel for a white one |
| Masking.XorBitsAreDifferences | src/guac_web.cpp:439-441 | bit k of the result, taken by division, is set if and only if bit k of the two operands differs |
| Masking.MaskedFlips | src/guac_websocket.cpp:161-163 | a sequence is the masked payload if and only if exactly those bits of octet i are flipped that octet i mod 4 of the key has set |
| Masking.MaskedTwice | src/guac_web.cpp:439-441 | masking twice with the same key gives the payload back |
| WsFrames.PlainRoundTrip | src/guac_websocket.cpp:169-187 | a gateway frame is read back, for every payload and whatever follows it (section 5.2 of RFC 6455) |
| WsFrames.MaskedRoundTrip | src/guac_web.cpp:412-436 | a client frame is read back for every payload and every key (section 5.3 of RFC 6455) |
| WsFrames.ShortestLength | src/guac_web.cpp:419-428 | no other way of writing the payload length takes fewer octets |
| WsFrames.ReadsTheFrame | src/guac_websocket.cpp:132-165 | the reader finds a frame and a rest if and only if the octets are laid out as that frame, field by field and bit by bit (section 5.2 of RFC 6455) |
| WsFrames.MaskedOctets | src/guac_web.cpp:412-443 | a client frame octet by octet: 0x81, mask bit and shortest length, key, payload with the bits of the key flipped |
| WsFrames.ExamplesOfTheStandard | src/guac_websocket.cpp:169-187 | the unmasked examples of section 5.7 of RFC 6455 |
| WsFrames.NothingIsReceived | src/guac_websocket.cpp:137 | a Close frame and an empty payload end the reading |
| WsFrames.SendWsFrame | src/guac_websocket.cpp:169-187 | the vector built byte by byte is the frame that the round trips invert, with these octets |
| WsFrames.CdpSend | src/guac_web.cpp:412-443 | likewise for the masked frame; bit k of payload octet i is flipped if and only if the key has it set |
| WsFrames.ReadWsFrame | src/guac_websocket.cpp:132-165 | the next payload, its bits flipped back where the key has them set; nothing at a Close frame or at the end of the stream |
| WsFrames.MessagesArrive | src/guac_websocket.cpp:132-165 | any sequence of non-empty messages arrives as it was sent, each under any key and in any length form |
| WsFrames.MessagesRoundTrip | src/guac_web.cpp:412-436 | any sequence of non-empty messages, framed by the client side under any keys or by the gateway side, is read back as that sequence, across all three length forms |
| WsFrames.ReadAllFrames | src/guac_websocket.cpp:409-411 | the loop of reads delivers exactly the payloads that the stream holds before the first empty one |
| WsFrames.CdpRecv | src/guac_web.cpp:446-497 | returns the payload and hands over the Pongs that the message-level specification gives |
| WsFrames.AnswersPings | src/guac_web.cpp:484-496 | after any number of Pings the first other message is returned, and each Ping has been answered once and in order |
| WsFrames.PongIsValid | src/guac_web.cpp:487-491 | the Pong is a frame with the Ping's payload if and only if that payload has at most 125 octets |
| ImageStream.SendImage | src/guac_web.cpp:854-868 | the emission is img, the text in blobs of at most 8192 characters, end |
| ImageStream.EmissionOfThree | src/guac_web.cpp:854-868 | an image of three characters, instruction by instruction |
| ImageStream.ImageHook.HandleInstruction | frontend/src/hooks/useGuacamole.ts:152-189 | img, blob and end change the stream map, the canvas calls and the closing of a terminal session as specified |
| ImageStream.EmissionIsDrawn | frontend/src/hooks/useGuacamole.ts:152-189 | an uninterrupted emission draws the image once, at its own position, type and text, and leaves no stream |
| ImageStream.StreamsAreSeparate | frontend/src/hooks/useGuacamole.ts:152-189 | what happens to one stream depends on its own instructions only |
| ImageStream.PicturesAreDrawnOnce | frontend/src/hooks/useGuacamole.ts:152-189 | under any interleaving of emissions with distinct ids, and with other instructions, each image is drawn exactly once, nothing else is drawn and no stream is left over |
| ImageStream.ClosedExactly | frontend/src/hooks/useGuacamole.ts:172-189 | over every list of instructions the socket is closed if and only if the session is a terminal and some `end` came for a stream that was not open |
| ImageStream.MissingArguments | frontend/src/hooks/useGuacamole.ts:155-157 | a position that is missing or is no number is 0, and a missing type is JPEG |
| ImageStream.TerminalGetsNothing | frontend/src/hooks/useGuacamole.ts:191-198 | whatever instructions come, the terminal is given nothing |
| ImageStream.OutputIsShownExactly | frontend/src/hooks/useGuacamole.ts:163-198 | so a terminal session shows what it should if and only if no blob is terminal output |
| ImageStream.OutputIsLost | frontend/src/hooks/useGuacamole.ts:191-198 | one blob of terminal output that is lost |
| ImageStream.EmissionArrives | src/guac_rdp.cpp:488-510 | from the gateway's serializer through the browser's parser to the canvas, an image with ASCII text is drawn as it was sent |
| Base64.DecodeOfEncode | src/guac_rdp.cpp:162-176 | decoding inverts encoding (section 4 of RFC 4648) |
| Base64.BlockIsGroup | src/guac_rdp.cpp:162-176 | three octets and the four digits that stand for them are the same number of 24 bits |
| Base64.DigitsAreTheAlphabet | src/guac_rdp.cpp:162-176 | the digits are those of table 1 of RFC 4648, in its order |
| Base64.ShortBlocks | src/guac_rdp.cpp:162-176 | missing octets count as zeros, and '=' fills the group |
| Base64.ChunksDecode | src/guac_web.cpp:862-866 | a chunk of 4n characters decodes on its own to its slice of 3n octets |
| Base64.BlobsDecodeSeparately | src/guac_rdp.cpp:503-507 | because 8192 is a multiple of four, each blob decodes separately to its 6144 octets |
| RdpPng.Extract | src/guac_rdp.cpp:470-487 | the strided pixel loops fill the buffer with the region's scan lines in PNG channel order |
| RdpPng.EncodePngRgba | src/guac_rdp.cpp:111-155 | the chunks written are the image that `PngOctets` lays out and the format's reader inverts, or nothing if there is no pixel or compression fails |
| RdpPng.PngOctets | src/guac_rdp.cpp:79-155 | the image octet by octet: signature, IHDR with both sizes and 8, 6, 0, 0, 0, IDAT with the compressed scan lines, an empty IEND and nothing after it, each chunk with length, name, data and checksum |
| RdpPng.ScanLines | src/guac_rdp.cpp:138-142 | before compression each scan line is preceded by filter type 0 and stands unchanged |
| RdpPng.PngRoundTrip | src/guac_rdp.cpp:111-155 | a reader of the format, which insists on IHDR, IDAT and a final IEND, gets back the size and every pixel, for any compressor and checksum |
| RdpPng.RegionArrives | src/guac_rdp.cpp:470-487 | each octet of each pixel that arrives is the framebuffer's at the region's offset and stride, red and blue exchanged |
| EpollProxy.ClientsAreHalf | src/epoll_proxy.cpp:264-276 | in a table that pairs every descriptor with its peer, exactly half of the entries are clients |
| EpollProxy.EpollProxy.AcceptConnection | src/epoll_proxy.cpp:240-279 | everyone who waits is accepted, and the pairs that join the table, linked both ways, are exactly those of the clients whose target could be reached; old entries stay, the counters rise by the number of pairs counted; an exception from `fcntl` or `epoll_ctl` ends it with at most one pair in the table that is not counted |
| EpollProxy.EpollProxy.CloseConnection | src/epoll_proxy.cpp:297-318 | a pair leaves the table and both its sockets are closed once; an unknown descriptor changes nothing |
| EpollProxy.EpollProxy.ForwardData | src/epoll_proxy.cpp:320-389 | unless a socket of the pair fails, ends or stays full too long, the source is read until nothing is left, the destination gets exactly the octets taken and the pipe returns empty; otherwise it has got a prefix, both sockets are closed and the pipe is not pooled |
| EpollProxy.EpollProxy.HandleEvent | src/epoll_proxy.cpp:281-295 | an error or hang-up closes the pair; otherwise a readable descriptor's octets, and only those, move from it to its own peer, and only a failure of one of the two closes the pair; an unknown descriptor changes nothing |
| EpollProxy.EpollProxy.Run | src/epoll_proxy.cpp:88-126 | each event does what `HandleEvent` or `AcceptConnection` says; after any events every pooled pipe is empty, the table is an involution without fixed points, and active_connections_ is half its size, or one less if an exception has ended the loop |
| EpollProxy.EpollProxy.Destroy | src/epoll_proxy.cpp:68-84 | every socket of the table and every pooled pipe is closed once, also after an exception |
| TlsTables.DroppedIsConsistent | src/tls_proxy.cpp:542-577 | closing a pair from either side keeps the tables consistent: pending and established disjoint, pairs mutual, one SSL object per client, backlogs armed |
| TlsTables.EstablishedIsConsistent | src/tls_proxy.cpp:296-320 | so does completing a handshake, which hands the SSL object to the client side of the new pair |
| TlsTables.EstablishedPair | src/tls_proxy.cpp:309-320 | client and target are each other's peer, the client holds the SSL object, the target is watched for input, and every other entry is as before |
| TlsProxy.TlsProxy.ContinueHandshake | src/tls_proxy.cpp:291-341 | each outcome of SSL_accept changes the tables as the corresponding transition says |
| TlsProxy.TlsProxy.CloseConnection | src/tls_proxy.cpp:542-577 | from either side the same pair, the same SSL object and both sockets go, each once |
| TlsProxy.TlsProxy.ForwardClientToTarget | src/tls_proxy.cpp:380-432 | what has been read has been written or, from the first octet not taken, appended to the target's backlog with EPOLLOUT armed |
| TlsProxy.TlsProxy.ForwardTargetToClient | src/tls_proxy.cpp:434-481 | a record that cannot be written now is kept for later, except that it is lost when TLS has to read first |
| TlsProxy.TlsProxy.FlushWriteBuf | src/tls_proxy.cpp:485-538 | what goes out and what stays make up the old backlog, and EPOLLOUT stays armed just as long as there is one |
| TlsOrder.OrderNeedsEmptyBacklog | src/tls_proxy.cpp:386-400 | whatever a call takes and however much of it the peer takes at once, what was queued and what is written stay in order if and only if there is no backlog when the call begins |
| TlsOrder.ForwardedInOrder | src/tls_proxy.cpp:386-400 | what the other end of a descriptor will have got after a forwarding call grows by exactly what was taken if and only if the call kept that order |
| TlsOrder.OctetsOvertake | src/tls_proxy.cpp:386-400 | two calls after a handshake: the target does not take the first octet at once, takes the second, and gets them in the wrong order |
| TlsProxy.TlsProxy.HandleEvent | src/tls_proxy.cpp:343-378 | an error or hang-up closes the pair; a writable descriptor has its own backlog sent and nobody else's; then a readable one's octets, and only those, move from it to its own peer; only the failure or end of one of the two, or a flush for which TLS has to read first, closes the pair |
| TlsProxy.TlsProxy.Loop | src/tls_proxy.cpp:78-141 | each event changes sockets and tables as its handler says, and no other descriptor's; for every descriptor whose calls have found no backlog and lost no record, what was taken from its peer is what has been written to it followed by its backlog |
| TlsTables.ClientIsWatched | src/tls_proxy.cpp:291-341 | after a handshake the proxy watches the client for input if and only if the handshake has not had to wait for output |
| TlsTables.ClientMayStall | src/tls_proxy.cpp:291-341 | a handshake that has waited for output leaves the client watched for output only |
| TlsProxy.TlsProxy.Run | src/tls_proxy.cpp:78-141 | over a whole run including destruction every SSL object is freed and every descriptor closed exactly once |
| UdpProxy.KeyIsInjective | src/udp_proxy.cpp:343-347 | different client addresses have different keys |
| UdpProxy.OneSocketPerClient | src/udp_proxy.cpp:251-302 | a client address has exactly one target socket and a socket exactly one client address |
| UdpProxy.LookupFindsOwnSession | src/udp_proxy.cpp:251-257 | the session found for an address is that address's own |
| UdpProxy.AllAreServed | src/udp_proxy.cpp:172-176 | all datagrams that have arrived are dealt with if and only if none of them is empty |
| UdpProxy.UdpProxy.HandleClientData | src/udp_proxy.cpp:164-196 | each datagram before the first empty one is handed to one `send`, in order, on the socket that was made for its sender, or has no session because the system refused a socket for it; exactly a successful send renews the session |
| UdpProxy.UdpProxy.HandleTargetData | src/udp_proxy.cpp:200-247 | each reply before the first empty one is handed to one `sendto`, in order, to the one address whose datagrams made the socket; an empty one or an error closes that session and no other |
| UdpProxy.UdpProxy.CleanupExpiredSessions | src/udp_proxy.cpp:304-324 | exactly the sessions that have been idle for the whole timeout are closed |
| UdpProxy.UdpProxy.Turn | src/udp_proxy.cpp:97-126 | each event of a turn is served so; the two tables stay mutually inverse, and at the end of every loop turn no session has been idle for session_timeout + cleanup_interval |
| Heartbeat.HeartbeatLoop | src/tunnel_agent.cpp:467-502 | heartbeats leave at ticks kT + 1, and the loop gives up at the first tick at which the last acknowledgement is overdue |
| Heartbeat.SilentServerIsNoticed | src/tunnel_agent.cpp:475-488 | a silent server is noticed at the first tick past the timeout, within one second of it |
| Heartbeat.PromptAnswersKeepAlive | src/tunnel_agent.cpp:475-493 | as long as answers take at most timeout - T - 1 seconds, no tick finds the last acknowledgement overdue |
| Heartbeat.PromptServerKeepsAgent | src/tunnel_agent.cpp:467-502 | so the loop, run for any number of ticks, does not give up |
| Heartbeat.WatchdogLoop | src/tunnel_server.cpp:519-555 | the watchdog looks at ticks 10k + 1 only and acts at the first look that finds the agent overdue |
| Heartbeat.WatchdogTicks | src/tunnel_server.cpp:519-535 | these are the ticks 11, 21, 31 and so on |
| Heartbeat.SilentAgentIsNoticed | src/tunnel_server.cpp:519-555 | a silent agent is noticed within ten seconds of the timeout |
| Heartbeat.ReconnectWaits | src/tunnel_agent.cpp:42-75 | the k-th reconnect wait is min(2^k, 60) seconds: 1, 2, 4, 8, 16, 32, then 60 for ever |
| MouseInput.MouseState.SendMouse | src/guac_web.cpp:714-782 | the queue grows by the scroll, press, release and move events that the specification lists for the old and the new mask |
| MouseInput.MouseEventsAre | src/guac_web.cpp:714-782 | an event is queued for a mask if and only if it occurs: scroll up for bit 3 and down for bit 4, a press or release for exactly the buttons whose bit has changed, one move, all at (x, y); each once, in the order scrolls, presses, releases, move |
| MouseInput.MaskBits | src/guac_web.cpp:718-724 | bits 0, 1, 2 of the mask are left, middle, right, and in the browser's field left, right, middle |
| MouseInput.MouseEventsReplay | src/guac_web.cpp:752-781 | the events of one mask keep presses and releases alternating and turn the old mask's buttons into exactly the new mask's low three bits |
| MouseInput.ReplayGivesLastMask | src/guac_web.cpp:714-782 | over every sequence of masks, buttons are pressed only while up and released only while down, and replaying all events gives the last mask's buttons |
| MouseInput.SendSamples | src/guac_web.cpp:714-782 | the object fed sample by sample queues exactly these events |
| MouseInput.PressesAndReleases | src/guac_web.cpp:758-777 | in such a sequence each button's presses exceed its releases by one exactly while it is down |
| MouseInput.DrainInputQueue | src/guac_web.cpp:601-629 | queued events are sent once, in order, under rising ids, each after the answer to the one before unless the stop flag is set; if the connection ends, what was sent is a prefix |
| MouseInput.AnswersInOrder | src/guac_web.cpp:613-624 | while the flag is not set the messages hold the answers in the order of the requests, and once it is nothing more is read |
| MouseInput.RequestsAreNumbered | src/guac_web.cpp:608-609 | the k-th event is sent under id first + k |

## Left out

- TunnelTheorems.ReverseConserves: is not stated across a reconnection, because a reader thread of an earlier connection sends on the agent's current one and octets on the old connection are then overtaken or lost.
- TunnelTheorems.ForwardConserves: is not stated after the agent has been replaced, because data read in between goes to another connection or nowhere; `TargetGetsPrefix` still holds.
- TunnelTables.TunnelServer.GenerateSessionId: the atomic increment is one step; the memory order is not modelled.
- GuacTheorems.RejectsExactly: a length for which memory cannot be reserved counts as too large; memory running out while a value is appended is not modelled.
- WsFrames.SendWsFrame: models the buffer handed to `write`; a partial write is not retried by the program, and the round trips presume that the kernel takes the whole buffer. The same holds for `CdpSend` and the Pongs of `CdpRecv`.
- WsFrames.ReadWsFrame: a payload for which memory cannot be allocated is not modelled, nor are fragmented messages, which the program does not put together either.
- DeltaCanvas.CanvasShowsLastFrame: the hypothesis that the codec loses nothing is an idealization of JPEG; the products of `src/guac_web.cpp:942` are unbounded integers, so frames of 2^29 pixels and more are not covered.
- DeltaStream.FindDirty: compares whole pixels where the program compares three channel octets.
- ImageStream.PicturesAreDrawnOnce: one emission per stream id; ids that are reused after their end are covered by `EmissionIsDrawn` only.
- RdpPng.PngRoundTrip: deflate and CRC-32 are any compressor with an inverse and any checksum.
- TunnelTheorems.TargetGetsPrefix: is not stated of runs in which a send succeeds after one has failed inside a frame, because the far end then reads frames that nobody sent (`TornFrameDesynchronizes`).
- TunnelIds.CounterSatisfiesGuard: what becomes of two sessions with one id, after more than 2^32 - 2 sessions have begun within the life of one, is not modelled.
- GuacLoop.Parse: the elements gathered by loops that never end are not bounded; that memory runs out is not modelled.
- EpollProxy.EpollProxy.ForwardData: a pipe that cannot be made is not modelled; there is any finite number of waits for a full peer, an endless alternation of `EAGAIN` and a successful `poll` is excluded.
- TlsProxy.TlsProxy.Run: exceptions from `epoll_ctl` and `fcntl`, which end the event loop, are modelled in `EpollProxy` only.
- MouseInput.DrainInputQueue: JSON parsing of the answers, and events that are queued while it runs, are not modelled.
- TlsProxy.TlsProxy.ForwardTargetToClient: states the loss of a record when TLS has to read first; nothing is claimed about resuming.
- UdpProxy.UdpProxy.HandleClientData: truncation at 65536 octets is not modelled.
- Registration check: `open_session` returns early when the agent is not registered (`src/tunnel_server.cpp:156-163`); the model lets it go on, which adds runs and removes none.
- After stop, `connect_via_tunnel` also erases its session (`src/tunnel_server.cpp:600-604`); the model leaves that to the clearing of the whole table.
- An OPEN whose payload cannot be parsed is ignored by the agent (`src/tunnel_agent.cpp:324-331`); the server's own OPEN frames always parse (`OpenRoundTrip`).
- Two agent processes with the same agent id: an agent connects only while it has no other connection.
- HELLO, HELLO_ACK, HEARTBEAT and HEARTBEAT_ACK are one kind of frame in `TunnelSystem`; their timing is in `Heartbeat`.
- Descriptors that the kernel gives out again: a session's sockets carry the session's number, so a write to a descriptor recycled by another session is not modelled; in the event-loop proxies a new descriptor is one that is not open.
- Fairness and liveness beyond the timing bounds, real sockets, epoll, threads, OpenSSL, libcurl, FreeRDP, libvncclient, libssh2, zlib and stb.
- `src/access_policy.cpp`, `src/tunnel_metrics.cpp`, configuration, logging, `src/jwt_verifier.cpp`, `src/mtls_context.cpp`, `src/basic_proxy.cpp`, `src/guac_ssh.cpp`, `src/guac_http.cpp`, `src/guac_vnc.cpp` and the React pages: they would add one-branch facts, foreign cryptography or weaker copies of what is here.
