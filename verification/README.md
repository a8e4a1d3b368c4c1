# Verified models of the calling and chatbot core

A Dafny model of the parts of the WhatsApp platform's backend where correctness does not show
from reading one function: the call-session protocol shared by many goroutines, the OGG/Opus
recorder and reader with its CRC, RTP renumbering across hand-offs, the compiler from legacy
chatbot steps to flow graphs and the interpreter that runs them, agent assignment and rotation,
DTMF decoding, and permission-cache invalidation.

`dafny verify dfyconfig.toml` checks everything.

## How it is organised

| files | what they model |
|---|---|
| `SessionProtocol.dfy`, `CallSession.dfy` | a call session: every locked section, channel operation and half of `safeClose` is one step; the same sections as methods on a class, run under any schedule |
| `SessionSafety.dfy`, `SessionTheorems.dfy`, `SessionProgress.dfy`, `SessionCalls.dfy` | the invariant of all interleavings, the promises that follow, what each end of a transfer achieves, and what every other call does, field by field |
| `Crc.dfy`, `OggFormat.dfy`, `Recorder.dfy`, `RecordedFile.dfy` | the CRC table against polynomial division, the page format with its reader, the recorder, the bytes of its file (section 6 of RFC 3533, section 5 of RFC 7845) |
| `Rtp.dfy` | sequence numbers and timestamps over the chain of players and bridges of one call (section 5.1 of RFC 3550) |
| `FlowGraph.dfy`, `FlowMigration.dfy`, `GraphRunner.dfy`, `GraphAnswers.dfy` | the graph index, the step-to-graph compiler, the interpreter, and what each node owes to a reply, a status, an expression or the clock |
| `Assignment.dfy`, `Rotation.dfy` | team assignment, and ringing agents one at a time |
| `Dtmf.dfy` | key presses to collected digits (sections 2.3 and 2.5.1.4 of RFC 4733) |
| `PermissionCache.dfy` | cached user and role permissions and their invalidation |
| `Wrappers.dfy` | optional values |

Code that updates fields or loops is modelled by classes and methods with loops, each proved
against a specification function or an outright property; the theorems are about those
functions. Concurrency is modelled as a transition system: an event names the thread that moves
and how an outside choice falls, any number of threads of every kind may exist, and a run is any
sequence of events. What the outside world answers (queries, templates, clocks, packets, failed
writes) is a parameter, and every theorem is for all its values.

Some results go against what one might expect, each with an exact condition or a witness:

- a terminal transfer status stays as it is exactly as long as none of five named steps is taken
  (`TerminalStaysIff`), and the stale write of a hang-up is one of them (`TerminalStatusOverwritten`);
- a caller leg is lost when the agent starts a transfer between the connect path's snapshot and
  its publication (`LegLost`);
- a waiting IVR loop can be woken if and only if the session is in the map and, when waiting, has
  a transfer id, or a timeout is running (`WakeableIff`); a loop stranded outside the map and one
  stuck inside it are both reachable (`StrandedVisit`, `StuckTransfer`);
- a current bridge can be stopped if and only if the session is in the map and not stuck waiting
  (`StoppableIff`), and a bridge published after cleanup leaks (`LeakedBridge`);
- the RTP stream carries on over a hand-off if and only if the number handed over is not 0, no
  agent transfer starts on a held call or in the IVR, and at most one packet is late at an end
  (`HandOffContinuousIff`, `BridgeContinuousIff`, `ResumesIff`); transferring a held call restarts the music at 0 beside the old one
  (`TransferOnHoldBreaksContinuity`);
- the reader drops empty packets (`RoundTrip`); a page puts it out of step if and only if it has
  more than 255 segments (`InStepIffCountFits`), and 48 ordinary packets make a file that cannot
  be read at all (`OversizedPageDoesNotReadBack`);
- steps of one name share their compiled edges (`CompiledResolution`, `SharedNameIff`), and a
  first step with the reserved name leads to itself (`ReservedNameBreaksIt`);
- a node that stores under the reserved trail key destroys the trail (`ClobberedTrail`);
- a migrated goto step whose target is the flow already running does not restart it: the session
  is completed (`LegacyFollowed`);
- a second press of the same key that lost its start packets is merged (`DecodesIff`).

## Model

| member | source | states |
|---|---|---|
| `SessionSafety.RunInv` | internal/calling/transfer.go:464-819 | every state of every interleaving keeps the token accounts (stop a bridge, settle a channel, call Start, feed and serve the slot, wait on a channel: session + threads + spent = issued), the bridge, channel and thread facts and the epoch log |
| `SessionTheorems.NeverPanics` | internal/calling/session.go:499-506 | no run closes a TransferDone or bridge stop channel twice or sends on a closed TransferDone channel; the other channels of a session are not modelled |
| `SessionTheorems.SettledAtMostOnce` | internal/calling/transfer.go:796-819 | each TransferDone channel is in exactly one place (session field, one thread about to settle it, settled, overwritten), so it gets at most one send or close |
| `SessionTheorems.SendNeverBlocks` | internal/calling/transfer.go:1067-1087 | a thread about to send finds the channel open and empty; the send completes and is the channel's only settlement |
| `SessionTheorems.ResumesOnce` | internal/calling/ivr.go:458-471 | each executeTransfer visit resumes at most once, and with the one outcome its channel was settled with |
| `SessionTheorems.StoppedAtMostOnce` | internal/calling/session.go:359-361 | each bridge is current, in the hands of one stopping thread, closed, or overwritten; its stop channel is closed at most once |
| `SessionTheorems.OneStopper` | internal/calling/bridge.go:219-226 | no two threads are inside Stop of the same bridge, so the non-atomic test of safeClose cannot go stale |
| `SessionTheorems.OneWinPerEpoch` | internal/calling/transfer.go:1028-1034 | between two wins (agent claim or no-answer) the session entered Waiting again, whatever hang-up, end, completion and cleanup steps interleave |
| `SessionTheorems.NeverTwoLegs` | internal/calling/bridge.go:77-105 | over a bridge's life at most one caller-to-agent leg is launched or queued for a served slot, at most one is sent, and a queued one has its server |
| `SessionTheorems.AttachNeverBlocks` | internal/calling/bridge.go:139-144 | AttachCaller's send always finds room |
| `SessionTheorems.LegExactly` | internal/calling/bridge.go:127-145 | after Start and without Stop, with no OnTrack in flight, there is a leg if and only if Start launched it or OnTrack found this bridge with an agent track |
| `SessionTheorems.ExactlyOneLeg` | internal/calling/transfer.go:616-699 | once the caller's track has arrived, the current started bridge has exactly one leg or one on its way, given the agent's track at snapshot and at publication |
| `SessionTheorems.LegLost` | internal/calling/transfer.go:274-284 | the premise is needed: a reachable state with a current started bridge, an arrived track and no leg |
| `SessionTheorems.TerminalStaysIff` | internal/calling/transfer.go:616-632 | over every continuation of any state with a terminal status, the status stays the same if and only if no step enters Waiting, writes Connected unconditionally, completes another status or writes a stale Abandoned |
| `SessionTheorems.StatusKeptIff` | internal/calling/transfer.go:709-714 | the same for one step of any goroutine |
| `SessionTheorems.TerminalStatusOverwritten` | internal/calling/transfer.go:1091-1126 | a reachable state whose status NoAnswer becomes Abandoned by the stale write of a hang-up |
| `SessionProgress.EndTransferAlone` | internal/calling/transfer.go:703-819 | from any reachable state with the session in the map and a transfer id that matches, a call of EndTransfer left to itself, on a transfer not yet completed, settles the waiting channel with "completed", stops the current bridge, and finishes |
| `SessionProgress.NoAnswerAlone` | internal/calling/transfer.go:1014-1088 | the timeout of a waiting transfer, left to itself, settles the channel with "no_answer" |
| `SessionProgress.HangupAlone` | internal/calling/transfer.go:1091-1148 | the caller's hang-up, for a session in the map and left to itself, settles it with "abandoned" |
| `SessionProgress.CleanupAlone` | internal/calling/session.go:323-414 | cleanup run alone, unless a transfer waits, removes the session, closes the waiting channel and stops the current bridge |
| `SessionProgress.WakeableIff` | internal/calling/transfer.go:703-712 | from any reachable state, some fresh end, hang-up or cleanup or some running timeout, left to itself, settles the channel an IVR loop waits on if and only if the session is in the map and, when waiting, has a transfer id, or it waits with a timeout running |
| `SessionProgress.StrandedVisit` | internal/calling/ivr.go:458-471 | the failing case outside the map is reachable: cleanup in the IVR, then a transfer node whose row cannot be created |
| `SessionProgress.StuckTransfer` | internal/calling/transfer.go:369-372 | the failing case inside the map is reachable: an agent transfer whose row cannot be created leaves the session waiting without an id and without a timeout, and the IVR loop waits for ever |
| `SessionProgress.StoppableIff` | internal/calling/session.go:477-497 | from any reachable state, some fresh call left to itself closes the current bridge if and only if the session is in the map and not waiting, without an id, on hold and incoming all at once |
| `SessionProgress.LeakedBridge` | internal/calling/transfer.go:634-634 | a reachable state whose current, open bridge no call can stop: it was published after cleanup |
| `CallSession.Interleave` | internal/calling/transfer.go:464-1168 | any schedule of any goroutines run section by section on a live session with its own bridge and channel fields ends, once joined with its history, in the state of the transition system, with every channel settled and every bridge closed at most once, at most one leg sent, and no panic |
| `SessionCalls.HoldAlone` | internal/calling/transfer.go:1283-1335 | a hold from any reachable state with a current bridge and no hold player, left to itself, closes that bridge and leaves the session without a bridge and on hold, everything else unchanged |
| `SessionCalls.ResumeAlone` | internal/calling/transfer.go:1377-1431 | a resume of a held call, left to itself, ends the hold and starts a new current bridge with the session's tracks, everything else unchanged |
| `SessionCalls.HoldThenResume` | internal/calling/transfer.go:1283-1431 | the two in sequence: the old bridge is closed once, a new one is current and started, nothing else has changed |
| `SessionCalls.ConnectAlone` | internal/calling/transfer.go:457-699 | an agent connecting to a waiting transfer, left to itself, leaves it connected, off hold, with the agent's track and a new current bridge |
| `SessionCalls.AgentTransferAlone` | internal/calling/transfer.go:240-383 | an agent transfer of a session that does not wait closes the bridge, drops the agent and leaves the session waiting, on hold and with a transfer id |
| `SessionCalls.VisitAlone` | internal/calling/ivr.go:442-471 | a transfer node makes a fresh open channel current, enters waiting on hold and listens to that channel |
| `SessionCalls.TimeoutStarts` | internal/calling/transfer.go:380-383 | a transfer that has entered waiting starts its timeout |
| `SessionCalls.TrackAttaches` | internal/calling/webrtc.go:66-85 | the caller's track, arriving while an unattached open bridge is current and an agent is there, ends up in that bridge's slot paired with the agent's track |
| `SessionCalls.SlotServes` | internal/calling/bridge.go:97-104 | the reserved slot takes the leg handed in, waits while there is none, and is released when the bridge is closed |
| `SessionCalls.TerminalEndAlone` | internal/calling/transfer.go:703-819 | ending a transfer nobody waits for closes the bridge and takes the session out of the map |
| `SessionCalls.OutgoingHangupAlone` | internal/calling/outgoing.go:413-500 | the agent's hang-up of an outgoing call with an IVR flow closes the bridge, drops the agent and keeps the call |
| `SessionCalls.RefusedChangesNothing` | internal/calling/transfer.go:1283-1299 | each of the seven calls, on a session that is gone or that its guard turns away, changes nothing |
| `SessionCalls.LateChangesNothing` | internal/calling/session.go:323-344 | a timeout after the wait is over, a clean-up of a session that is gone or waits, and an outgoing bridge for an incoming call change nothing |
| `SessionCalls.FailureLeavesNoTrace` | internal/calling/transfer.go:457-560 | an outside failure ends the call without changing the session; after the agent is connected it ends the transfer, and an IVR visit goes on listening |
| `Crc.OggCrc32` | internal/calling/recorder.go:264-270 | for every byte string the table-driven loop returns the remainder of the message times x^32 under long division by 0x04C11DB7 |
| `Crc.FeedIsRemainder` | internal/calling/recorder.go:264-270 | the bit-serial register equals that long division |
| `Crc.TableStep` | internal/calling/recorder.go:266-268 | one table lookup equals eight bit steps |
| `Crc.IndexInTable` | internal/calling/recorder.go:267-267 | the table index is below 256 for every register and byte |
| `Crc.BuildTable` | internal/calling/recorder.go:13-25 | entry i is the remainder of byte i after eight steps |
| `OggFormat.ReadOpusPackets` | internal/calling/audio.go:176-259 | the reader's loop equals the recursive parser on every byte string, errors included; an input that ends in a read error gives that error unless an earlier one is found |
| `OggFormat.SplitPayload` | internal/calling/audio.go:228-255 | the segment loop cuts the payload at segments shorter than 255 and drops empty packets |
| `OggFormat.SplitPage` | internal/calling/audio.go:228-255 | splitting a laced page gives back its non-empty packets, lengths that are multiples of 255 included |
| `OggFormat.ReadPage` | internal/calling/audio.go:176-259 | a written page followed by anything is read as that page and then the rest |
| `OggFormat.InStepIffCountFits` | internal/calling/recorder.go:196-196 | the reader lands on the end of a page if and only if the page has at most 255 segments |
| `OggFormat.WrappedCountIsFatal` | internal/calling/recorder.go:196-196 | a page whose segment count is a positive multiple of 256 and whose first packet has at least 255 bytes makes the reader fail with a bad signature, whatever follows |
| `OggFormat.SplitConserves` | internal/calling/audio.go:228-255 | for any segment table that accounts for the payload, also one that ends inside a packet, the packets joined are the payload, and none is empty |
| `OggFormat.TruncatedPage` | internal/calling/audio.go:176-226 | a page cut off anywhere reads as nothing inside the header, and as the error of the table or of the payload that is cut |
| `OggFormat.ForeignData` | internal/calling/audio.go:190-199 | data that does not open with the capture pattern is refused |
| `OggFormat.LittleEndianValue` | internal/calling/recorder.go:192-194 | the sum of byte i times 256^i over the bytes written is the number, modulo 256 to the width |
| `Recorder.RoundTrip` | internal/calling/recorder.go:76-114 | with successful writes and pages of at most 255 segments, reading the finished file returns the accepted packets if and only if none was empty |
| `Recorder.SmallPacketsFit` | internal/calling/recorder.go:157-172 | packets of at most 1274 bytes always meet the page bound |
| `Recorder.FileReadsBack` | internal/calling/recorder.go:157-217 | after any calls and failures, if every written page has at most 255 segments, the file reads back as the non-empty packets of the pages written |
| `Recorder.WrappedPageSpoilsFile` | internal/calling/recorder.go:196-196 | after any calls and failures, one written page whose count wraps to 0 makes the whole file unreadable if the pages before it fit |
| `Recorder.WrappedGroupSpoilsFile` | internal/calling/recorder.go:157-217 | the same in terms of the packets accepted: the first group of 48 that does not fit, when its count wraps |
| `Recorder.OversizedPageDoesNotReadBack` | internal/calling/recorder.go:196-196 | 16 packets of 1275 bytes and 32 of 1274, all writes successful, give a file that reads as a bad signature |
| `Recorder.FileIsPages` | internal/calling/recorder.go:126-155 | the file is the two header pages followed by exactly the recorded pages |
| `Recorder.Conservation` | internal/calling/recorder.go:76-114 | packets in written pages followed by the buffer are all accepted packets in order, whichever writes fail |
| `Recorder.PagesNumbered` | internal/calling/recorder.go:205-216 | page numbers are consecutive from 0, modulo 2^32 |
| `Recorder.PagedWhenOk` | internal/calling/recorder.go:76-114 | with successful writes fewer than 48 packets are buffered between calls and none after Stop; all pages but the last are full |
| `Recorder.EndOfStreamMark` | internal/calling/recorder.go:108-110 | an end-of-stream page exists if and only if the packet count is not a multiple of 48 |
| `Recorder.GranulePosition` | internal/calling/recorder.go:174-174 | the granule position is 960 per attempted packet, and matches the file if and only if no write failed |
| `Recorder.PageGranules` | internal/calling/recorder.go:174-216 | with successful writes each page carries 960 times the packets up to its end |
| `Recorder.CallRecorder.NewCallRecorder` | internal/calling/recorder.go:54-74 | a recorder whose file holds the two header pages, or nothing when the file or a header page fails |
| `Recorder.CallRecorder.WritePacket` | internal/calling/recorder.go:76-96 | the new state is the recorder's write transition |
| `Recorder.CallRecorder.Stop` | internal/calling/recorder.go:98-114 | the new state is the stop transition, with packet count and error |
| `Recorder.CallRecorder.FlushPage` | internal/calling/recorder.go:157-217 | the new state is the flush transition; a failed write keeps the buffer but not the granule position |
| `Recorder.BuildPage` | internal/calling/recorder.go:182-204 | the array filled field by field, with the checksum computed over a zeroed field, has the bytes of the page: "OggS", version 0, the flags, granule, stream 0 and page number least significant byte first, the long-division remainder of the page with bytes 22 to 26 zeroed, the segment count modulo 256, segments, payload |
| `Recorder.SegmentTable` | internal/calling/recorder.go:162-171 | the lacing loop produces the segments of the packets |
| `RecordedFile.HeaderPages` | internal/calling/recorder.go:126-155 | every recording opens with 47 bytes of a page flagged as first and 53 of the next, numbered 0 and 1, with granule 0, and with checksums that are the long division of the page with its own field zeroed |
| `RecordedFile.OpusHeadBytes` | internal/calling/recorder.go:126-141 | the bytes of the first packet: name, version 1, one channel, no pre-skip, 48000 read least significant byte first, no gain, family 0 |
| `RecordedFile.OpusTagsBytes` | internal/calling/recorder.go:143-154 | the bytes of the second: name, vendor length 9, vendor, no comments |
| `RecordedFile.EveryPage` | internal/calling/recorder.go:157-217 | after any calls and failures, the file from byte 100 is pages end to end, and the bytes of each say version 0, its flags, its granule position, stream 0, its number from 2 on, the remainder of the page with its checksum zeroed, its segments and its payload |
| `RecordedFile.EveryGoodPage` | internal/calling/recorder.go:76-217 | with successful writes and after Stop the page bytes say 48 packets and no flag, or fewer and the end of the stream on the last, and 960 for each packet so far |
| `Rtp.Continuity` | internal/calling/transfer.go:592-640 | over any chain of IVR, ringing, bridged and held parts of a call, if no hand-off value is 0, each bridge forwards a packet, no agent transfer starts on a held call or in the IVR and at most one packet goes out between the reading of a hold player's position and its stop, every packet follows the one before by 1 + skipped numbers modulo 65536 and 960 samples for each modulo 2^32, or by the agent's own distance |
| `Rtp.OneOrTwoAhead` | internal/calling/transfer.go:731-749 | if each player that took over from a player sends something, a new source is 1 or 2 numbers and 960 or 1920 samples ahead |
| `Rtp.SeededBridge` | internal/calling/bridge.go:166-196 | a seeded bridge moves the agent's stream as a whole, its first packet one frame after the seed |
| `Rtp.SeededStream` | internal/calling/bridge.go:166-196 | in numbers: packet i of the agent comes out 1 number and 960 samples after the seed plus its distance from the agent's first packet |
| `Rtp.UnseededStream` | internal/calling/bridge.go:186-215 | a bridge that was not seeded passes the agent's numbers on as they are and remembers the last |
| `Rtp.TroubleKeepsPlace` | internal/calling/bridge.go:166-215 | after any packets, a malformed one is passed on and not counted, one that cannot be marshalled is missing but keeps its number, a failed write ends the loop |
| `Rtp.HandOffContinuousIff` | internal/calling/transfer.go:249-305 | a hold, an agent transfer or an end carries the stream on, whatever the new player and players left running then send, if and only if it meets those conditions |
| `Rtp.ResumesIff` | internal/calling/transfer.go:731-738 | an ended hold player's successor is in place, short of a full turn of the numbers, if and only if the number read is not 0 and at most one packet went out after the reading |
| `Rtp.TransferOnHoldBreaksContinuity` | internal/calling/transfer.go:269-305 | a held call that is transferred: the new music starts at 0 and the old player goes on, so the stream is not linked |
| `Rtp.BridgeContinuousIff` | internal/calling/transfer.go:638-640 | a bridge carries on for every agent stream if and only if the handed-over number is not 0 |
| `Rtp.WrapBreaksContinuity` | internal/calling/transfer.go:638-640 | 65536 packets of hold music and then an agent break continuity |
| `Rtp.AudioPlayer.SetSequence` | internal/calling/audio.go:35-38 | the player stands one frame after the given packet |
| `Rtp.AudioPlayer.Play` | internal/calling/audio.go:69-93 | packet i carries the player's number plus i modulo 65536 and its timestamp plus 960 i modulo 2^32, the player ends as many frames on, and it plays until a stop or failed write |
| `Rtp.AudioBridge.SeedSequence` | internal/calling/bridge.go:65-69 | sets the offset and asks for a new base |
| `Rtp.AudioBridge.ForwardPacket` | internal/calling/bridge.go:166-215 | one packet, malformed or not, written, failing or not marshalled, equals the numbering step; a rewritten number is remembered before the write, a raw one after |
| `Rtp.AudioBridge.Forward` | internal/calling/bridge.go:152-216 | the loop equals folding that step over the packets read, ending at the first failed write |
| `Rtp.MakeBridge` | internal/calling/transfer.go:594-640 | the bridge after a hold player is seeded with the player's position unless its number is 0 |
| `Rtp.MakePlayer` | internal/calling/transfer.go:1326-1331 | the player after a bridge starts one frame later unless the number is 0 |
| `Rtp.MakeTransferPlayer` | internal/calling/transfer.go:271-305 | an agent transfer's player starts after the bridge's last packet if there is a bridge, and at 0 otherwise |
| `FlowGraph.Graph.ResolveEdge` | internal/flowgraph/flowgraph.go:69-80 | on the built index, the first exact match among all edges from the node, else the last default edge, else empty |
| `FlowGraph.ResolvePicks` | internal/flowgraph/flowgraph.go:69-80 | the edge taken is the one of least index that matches the outcome exactly, else the one of greatest index that says "default", else none |
| `FlowGraph.Graph.BuildMaps` | internal/flowgraph/flowgraph.go:45-55 | the index maps each id to its last node and each source to its edges in order |
| `FlowGraph.Graph.NodeById` | internal/flowgraph/flowgraph.go:57-59 | the last node with that id |
| `FlowGraph.FindNodeLast` | internal/flowgraph/flowgraph.go:45-50 | the node found is the one of greatest index with that id |
| `FlowGraph.Graph.OutgoingEdges` | internal/flowgraph/flowgraph.go:62-64 | the edges from that node in list order |
| `FlowGraph.ResolveLocal` | internal/flowgraph/flowgraph.go:69-80 | resolving on all edges equals resolving on the node's own edges |
| `FlowGraph.ResolveStaysInside` | internal/handlers/chatbot_graph_types.go:47-70 | on graphs whose edge targets are nodes, resolution gives a node or nothing |
| `FlowMigration.CompiledSuccessor` | internal/handlers/chatbot_flow_migration.go:88-168 | for distinct names, none reserved, and every outcome a step's node can report, the compiled graph leads to the legacy successor, independently of map iteration order |
| `FlowMigration.StartSuccessor` | internal/handlers/chatbot_flow_migration.go:88-168 | the start node leads to the first step by order |
| `FlowMigration.SortedNeighbour` | internal/handlers/chatbot_flow_migration.go:340-352 | the neighbour in the stable sort is the next step by order, ties by position |
| `FlowMigration.ButtonsResolve` | internal/handlers/chatbot_flow_migration.go:377-416 | a mapped button leads to its target, an unmapped one falls through, in any key order |
| `FlowMigration.CompiledIsRunnable` | internal/handlers/chatbot_graph_types.go:47-70 | every compiled graph passes the parser and its edges end in nodes |
| `FlowMigration.CompiledResolution` | internal/handlers/chatbot_flow_migration.go:340-375 | for every step list, repeated and reserved names included, a name resolves to the first exact edge of any step that bears it, else the last default edge of any |
| `FlowMigration.SharedNameIff` | internal/handlers/chatbot_flow_migration.go:340-375 | for every step and reportable outcome, steps without an edge of their own and the reserved name included, the compiled successor is the legacy one if and only if the first exact edge among the earlier, own and later steps of the name, or else the last default edge among them, leads there |
| `FlowMigration.RepeatedNameIff` | internal/handlers/chatbot_flow_migration.go:340-375 | a step that has an edge of its own for an outcome keeps its legacy successor if and only if no earlier step of its name has one that leads elsewhere |
| `FlowMigration.ReservedNameBreaksIt` | internal/handlers/chatbot_flow_migration.go:88-168 | a first step with the sentinel's name becomes its own successor |
| `FlowMigration.DuplicateNamesBreakIt` | internal/handlers/chatbot_flow_migration.go:340-375 | with two steps of one name the compiled successor differs from the legacy one |
| `FlowMigration.StepsToGraph` | internal/handlers/chatbot_flow_migration.go:88-168 | gives a graph exactly when every step type is supported; then version 2, entry "__start__", the start node first, the node of each sorted step of the kind its type and input settings call for, and the compiled edges |
| `FlowMigration.CompiledKinds` | internal/handlers/chatbot_flow_migration.go:113-139 | the node at a step's name is a prompt if and only if the step is text with an input type other than none, a variable or an expression, a message if and only if it is any other text, and one kind for each other type |
| `FlowMigration.EmitEdges` | internal/handlers/chatbot_flow_migration.go:340-375 | the loop over sorted steps emits the edges of the specification, for some listing of each map's keys |
| `FlowMigration.EmitButtonsEdges` | internal/handlers/chatbot_flow_migration.go:377-416 | emits the mapped edges in some key order and a fall-through edge for each unmapped button, as specified |
| `FlowMigration.EmitBranchEdges` | internal/handlers/chatbot_flow_migration.go:418-432 | emits one edge per handle whose target is a step |
| `GraphRunner.TrailReplays` | internal/handlers/chatbot_graph_runner.go:101-186 | after any number of inbound messages, replaying the recorded trail from the entry node gives the row's current flow and step, and every visit names the node replay stands at, its kind and an outcome of that kind, when no node stores under the trail's key |
| `GraphRunner.ConversationWalksTheSteps` | internal/handlers/chatbot_graph_runner.go:101-186 | after any inbox, every move the trail records within a migrated flow is a legacy move of the visited step for the recorded outcome; which outcome that must be is `GraphAnswers.ConversationFollowsTheAnswers` |
| `GraphRunner.VisitsWalkTheSteps` | internal/handlers/chatbot_flow_migration.go:88-168 | the same for one entry of any honest trail |
| `GraphRunner.ReportsAreKnown` | internal/handlers/chatbot_graph_runner.go:191-228 | every outcome an executor reports is one the compiler counts on for that kind of node |
| `GraphRunner.ClobberedTrail` | internal/handlers/chatbot_graph_runner.go:612-650 | a set_variable on the trail's key makes replay go astray |
| `GraphRunner.InboundSound` | internal/handlers/chatbot_graph_runner.go:109-185 | on closed graphs no inbound reaches node-not-found, each runs at most 100 nodes, at most one blocking node takes the input, and the saved row is again inside its graph |
| `GraphRunner.InboxSound` | internal/handlers/chatbot_graph_runner.go:109-185 | the same for every inbound of a conversation of any length |
| `GraphRunner.CompiledFlowsClosed` | internal/handlers/chatbot_flow_migration.go:88-168 | any table whose graphs were all compiled from steps is closed in that sense |
| `GraphRunner.RunChatGraph` | internal/handlers/chatbot_graph_runner.go:65-186 | the loop over the mutable session, on the indexed graph and with seeded variables, equals the interpreter's specification: saved row, ending, node count, session; what that specification owes to the answers is `GraphAnswers.ConversationAnswered` |
| `GraphRunner.RunNode` | internal/handlers/chatbot_graph_runner.go:109-185 | one turn of the loop (skip, execute, yield, switch of flow, move) equals the specified step, of which `GraphAnswers.EveryTurn` says what it owes to the answers |
| `GraphRunner.ChatSession.Append` | internal/handlers/chatbot_graph_runner.go:953-966 | appends one trail entry, starting a new trail if the key holds something else |
| `GraphAnswers.AnswersDecide` | internal/handlers/chatbot_graph_runner.go:191-932 | for every node kind, session, input and answers, the outcome reported, the input taken and what the session keeps are the ones these answers call for ("true" if the expression holds, "http:2xx" for such a status, "in_hours" inside them, the button pressed, "default" and the reply kept when accepted, "max_retries" at the limit), and no others |
| `GraphAnswers.EveryTurn` | internal/handlers/chatbot_graph_runner.go:101-186 | every turn of the loop runs the node found as answered, notes it with its outcome on the trail, and follows the edge for that outcome, ends, waits, fails, or enters another flow |
| `GraphAnswers.EveryBeginning` | internal/handlers/chatbot_graph_runner.go:65-99 | an inbound starts at the row's step with the built-in variables set, or at the entry node with the trigger text cleared |
| `GraphAnswers.ConversationAnswered` | internal/handlers/chatbot_graph_runner.go:65-186 | every inbound of every conversation is a run of at most 100 such turns from such a beginning, and the next one starts from the row it saved |
| `GraphAnswers.LegacyFollowed` | internal/handlers/chatbot_flow_migration.go:88-168 | a turn at a step of a migrated flow does what the legacy list says for that reply, press, form, status, expression or hour: on to the step it names, or waiting there, with accepted replies kept and rejections counted |
| `GraphAnswers.ConversationFollowsTheAnswers` | internal/handlers/chatbot_graph_runner.go:101-186 | the same at every visit of a migrated step in every inbound of any conversation |
| `GraphAnswers.AskingStepWaits` | internal/handlers/chatbot_graph_runner.go:316-338 | an inbound that comes to a text step that asks for input without bringing any ends there, and the row is left at that step |
| `GraphAnswers.PlainStepGoesOn` | internal/handlers/chatbot_graph_runner.go:233-246 | a text step that only says something never waits: it is noted as "default" and the run goes on to the next step |
| `GraphAnswers.NthRejection` | internal/handlers/chatbot_graph_runner.go:316-385 | over any run of rejected replies to a prompt, "max_retries" is reported at the rejection that reaches the limit and at none before; until then the row stays at the prompt and counts them |
| `Assignment.BoundedWait` | internal/assignment/assigner.go:68-92 | an agent that stays available is chosen within as many assignments as the team has members, whatever else changes |
| `Assignment.PassedOver` | internal/assignment/assigner.go:68-92 | while an agent is passed over, each agent chosen was ahead of it, falls behind it and is not chosen again |
| `Assignment.EveryWindowIsPermutation` | internal/assignment/assigner.go:68-92 | with a fixed available set of n, any n consecutive assignments choose each agent exactly once |
| `Assignment.FilterAvailable` | internal/assignment/assigner.go:124-154 | exactly the members that are not excluded, available and active |
| `Assignment.Assigner.AssignRoundRobin` | internal/assignment/assigner.go:68-92 | picks an eligible member with the oldest stamp and stamps it unless that write fails; none if and only if the query fails or nobody eligible has a row |
| `Assignment.AssignLoadBalanced` | internal/assignment/assigner.go:96-120 | an eligible agent with the least load; none if and only if nobody is eligible |
| `Assignment.Assigner.AssignToTeam` | internal/assignment/assigner.go:36-54 | the strategy's promise, nobody for unknown or manual teams, round robin for unknown strategies |
| `Rotation.Rotate` | internal/calling/transfer.go:826-1009 | such a rotation, and its stop decides the ending; agents tried are distinct members, at most team size plus one turns even if the deadline never comes, the broadcast goes exactly to eligible online members not tried, every such member is tried or told, and no-answer is called exactly when nobody is left or the deadline passes after the broadcast |
| `Rotation.TryAgents` | internal/calling/transfer.go:864-957 | every turn takes place before the deadline on a transfer that waits and tries the strategy's choice among those not yet tried; every agent but the last was offline or let its time run out; the loop stops only at the deadline, a transfer no longer waiting, nobody to assign, an acceptance or a deadline while ringing; the agents rung are those that were online in their turn |
| `Rotation.EveryoneRings` | internal/calling/transfer.go:864-957 | with no deadline, nobody accepting and a transfer that stays waiting, every member that stays eligible and online is rung before the broadcast |
| `Dtmf.DecodesIff` | internal/calling/dtmf.go:28-36 | the decoded digits are the typed digits if and only if every press without start packets differs in key from the one before |
| `Dtmf.WholePressesDecode` | internal/calling/dtmf.go:28-36 | presses with at least one start and one end packet decode exactly, whatever the repeats |
| `Dtmf.LostStartMergesPresses` | internal/calling/dtmf.go:28-36 | two presses of one key read as one when the second lost its start |
| `Dtmf.GatherReturnsTyped` | internal/calling/ivr.go:372-393 | from presses to input: the longest prefix before the terminator, up to maxDigits |
| `Dtmf.PayloadsDecode` | internal/calling/dtmf.go:61-91 | the same from the bytes on the track: payloads that carry the presses in the event byte and the top bit of the next decode to the keys typed |
| `Dtmf.KeyTable` | internal/calling/dtmf.go:9-22 | events 0 to 9 are the digits, 10 is the star, 11 the hash, and no other event is a key |
| `Dtmf.CollectDigits` | internal/calling/ivr.go:372-393 | the loop returns the longest run of digits before the terminator, a closed buffer or the deadline, up to maxDigits |
| `Dtmf.Decoder.DecodeEvent` | internal/calling/dtmf.go:28-36 | the digit of a new end packet, and the remembered event |
| `Dtmf.Decoder.HandleTrack` | internal/calling/dtmf.go:61-91 | the loop decodes exactly the payloads of at least four bytes |
| `Dtmf.DigitBuffer.SendDigit` | internal/calling/dtmf.go:38-48 | appends unless 32 digits wait, and then drops |
| `PermissionCache.RunsStayCoherent` | internal/handlers/cache.go:406-485 | in every sequential run of reads, expiries, role changes and user changes with their invalidations, what is cached, per user and per role, is what a fresh load gives |
| `PermissionCache.RoleInvalidationSuffices` | internal/handlers/cache.go:614-649 | after a role changed and its holders were invalidated, every entry left agrees with a fresh load, fallbacks included |
| `PermissionCache.LoadThroughRole` | internal/handlers/cache.go:436-449 | a load uses a role only if its user holds it by default or through a live membership |
| `PermissionCache.LoadGrants` | internal/handlers/cache.go:406-485 | a load gives the name, flags and "resource:action" permissions, in order, of the role of the first live membership if that has one, else of the first live user row, and nothing if user or role is missing; if and only if |
| `PermissionCache.UserInvalidationSuffices` | internal/handlers/cache.go:600-611 | after a user's rows changed and the user was invalidated, every entry left agrees with a fresh load |
| `PermissionCache.Cache.Get` | internal/handlers/cache.go:406-485 | a hit is served, a miss loaded and stored; on a coherent cache the answer is the fresh load |
| `PermissionCache.Cache.InvalidateUser` | internal/handlers/cache.go:600-611 | removes exactly the entries whose key names the user and keeps the others as they were |
| `PermissionCache.Cache.InvalidateRole` | internal/handlers/cache.go:614-649 | removes the role's own entry and exactly the entries of users with a live row or live membership in the role that its two queries return |
| `PermissionCache.Cache.GetRole` | internal/handlers/cache.go:563-597 | a role's permissions: a hit is served, a miss loaded and stored; on a coherent cache the answer is the fresh load |
| `PermissionCache.FailedInvalidationIff` | internal/handlers/cache.go:624-640 | when a query of the invalidation fails after a role changed or was deleted, coherence survives if and only if every cached entry that names the role belongs to a user still found |
| `PermissionCache.StaleIff` | internal/handlers/cache.go:464-475 | a change of a role makes an entry stale if and only if the entry names that role |
| `PermissionCache.RoleEntryInvalidationSuffices` | internal/handlers/cache.go:617-619 | dropping the role's own entry keeps the role cache equal to fresh loads |

## Left out

- WebRTC, SDP and ICE negotiation, tickers and sleeps: foreign calls; a track is an id and a wait is a choice.
- Database rows, WebSocket events, HTTP callbacks, uploads: only what guards read from them is kept; in cleanup and transfer code a failed query appears where it changes the control flow.
- Which id a call names: a lookup finds the session when it is in the map, and its transfer when it has an id, unless an outside choice says that the id is out of date.
- BridgeStarted and the goroutines that drain tracks: they do not own bridges, channels or status; in particular the unlocked close of BridgeStarted on the outgoing path is not part of this model.
- The leg theorems are about incoming calls; AttachCaller is not used on outgoing ones.
- How a forwarding leg ends by itself (a read error): a leg counts as launched for the bridge's life.
- `bridge.Wait`: only delays the caller.
- SessionTheorems.NeverPanics: BridgeStarted, TransferAccepted, the DTMF buffer and the players' stop channels are not modelled, because the steps that own bridges and TransferDone do not read them.
- SessionProgress.NoAnswerAlone: stopping the hold player and saving its number is left out, because the protocol keeps only whether there is a hold player; Rtp.Continuity has the number.
- SessionProgress.HangupAlone: cancelling the timeout and signalling the rotation is left out, because both only make other goroutines stop earlier.
- ResumeCall in the RTP chain: it does not seed its bridge, so continuity is not claimed for it; it is part of the session protocol.
- Rtp.Continuity: a bridge in the chain ends without a failed write, and the connect path reads a stopped player after its pause.
- LastRTPSeq after a hang-up or an outgoing hang-up: the chain covers transfers, holds and their ends.
- Node configurations, canvas positions and JSON encoding of compiled graphs: they do not affect which node comes next.
- Templates, regular expressions, expression conditions, AI providers, HTTP calls of chatbot nodes: arbitrary answers.
- GraphRunner.TrailReplays: one direction; a node that stores under the trail's key may by chance leave a trail that still replays.
- Assignment.BoundedWait: assumes a strictly increasing clock and that the stamp is written, as the theorem's runs say.
- A flow edited between two loads within one inbound: the flow table is fixed.
- Recorder writes are all or nothing.
- Team configuration is fixed during one rotation; its cache is not modelled.
- Dtmf.DecodesIff: presses of events 12 to 15 and interleaved tracks are not modelled.
- PermissionCache.RunsStayCoherent: runs are sequential, because a fill that races with an invalidation can store what it read before; Redis failures are left out too.
- Talk and hold durations, schedules, campaign counters, SLA deadlines, CRUD handlers, authentication, configuration and the frontend: single-function facts or plumbing.
