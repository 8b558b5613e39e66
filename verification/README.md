# Verified model of the B-route collector

The collector talks to a Wi-SUN module over a serial line, joins the network of a smart meter, asks
it for readings in ECHONET Lite frames and stores aggregated measurements. This project models the
path from serial bytes to stored aggregates and proves what the parts promise to each other.

| file | part of the program |
|---|---|
| `Tokenizer.dfy` | cutting serial input into lines |
| `Driver.dfy`, `LineKinds.dfy`, `Demux.dfy` | telling events, scan blocks and command responses apart |
| `EventQueue.dfy`, `CommandProtocol.dfy` | the event channel and the pending command, as interleavings |
| `CommandLines.dfy` | the pending command of the object is that of the interleavings |
| `Echonet.dfy`, `Udp.dfy`, `Mac.dfy`, `PropertyMap.dfy` | wire formats |
| `EndToEnd.dfy` | from bytes on the line to decoded frames |
| `Scan.dfy` | reading and choosing beacons |
| `SkModule.dfy` | the commands of a connection as the module takes them |
| `Supervisor.dfy`, `Manager.dfy` | joining, reconnecting and waiting for a connection |
| `Meter.dfy` | correlating responses with requests |
| `SeriesKey.dfy`, `Downsample.dfy`, `Downsampler.dfy`, `DownsampleRuns.dfy` | windowed aggregation |
| `Prelude.dfy`, `Text.dfy` | shared types and the string functions of the Go library |

## How the model is built

* Code that changes state is a class or a method with loops, proved against a specification function;
  the theorems are about that function. Code made of expressions is a function.
* Where an object also takes part in an interleaving, lemmas say that a method is the steps of the transition
  system without interference (`CommandIsSteps`, `DispatchIsSteps`, `MethodsAreSteps`, `UninterruptedPush`, `UninterruptedWrite`).
* Concurrent parts are transition systems. A step is one critical section, one channel operation or one
  command; `Reaches` admits every order of enabled steps. Time-outs and cancellation are steps that may
  happen at any moment, so no theorem depends on a clock.
* A Go string is a sequence of characters, one for each byte. Payload bytes are integers below 256. The
  wrap of the 16-bit and 32-bit counters and the cut of counts to one byte are written out.
* Sample values are real numbers and timestamps are integers, in nanoseconds since the zero time of Go.
* The address parser of the library is a parameter; it is only assumed to read the full form.

## Where code and documentation differ

* Windows are announced as aligned to the Unix epoch (`internal/sink/downsample.go:75`), but are aligned to
  the zero time of Go. `UnixAlignedIff` says for which windows that is the same.
* `internal/sink/downsample.go:129` speaks of a later window; any other window, also an earlier one, pushes
  the buffer out. `OnlineIsBatch` therefore speaks of maximal runs. The promise of monotone timestamps at
  `internal/sink/downsample.go:222` is kept, in runs without idle flushes, if and only if no sample goes back
  to an earlier window (`OneEmissionPerWindow`); inside a window the samples may come in any order.
* `internal/broute/manager.go:12` announces a back-off after a disconnect; the code reconnects at once and
  backs off only after a failed attempt (`BackOffOnlyAfterFailure`).
* `internal/broute/connect.go:24` and line 30 name ROPT before WOPT and the command SKLL64; the code sends
  WOPT first and computes the link-local address itself.
* The count byte of the long property map is not compared with the mask (`LongFormExact`), and `Encode`
  cuts counts above 255 (`RoundTripIff`).
* `internal/broute/connect.go:222` describes EVENT 25 as following SKJOIN; the channel is opened before SKJOIN is
  sent, and an EVENT 25 in between already counts (`FirstLookedUpDecides`, `EarlySuccessCounts`).
* After a clean end of input the read loop has ended for good, but Done does not fire. A command that had not
  claimed the slot by then can only time out or fail to write, unless somebody calls Close
  (`AfterEndOfInput`).

## Model

| member | source | states |
|---|---|---|
| `Tokenizer.ScanLinesCRLF` | internal/bp35c2/driver.go:281-294 | returns the bytes before the first CR or LF and consumes exactly one byte more; without one, the rest of the input at its end and nothing before; a token always consumes at least one byte |
| `Tokenizer.ChunkIndependence` | internal/bp35c2/driver.go:245-257 | for any cutting of any stream into reads: the non-empty lines are those of the whole stream; the scan fails exactly on streams with a run of 1 MiB free of CR and LF, and has then delivered a prefix of those lines |
| `Tokenizer.ChunksAfter` | internal/bp35c2/driver.go:245-257 | the same from any intermediate state of the scanner |
| `Tokenizer.LineIsRun` | internal/bp35c2/driver.go:275-294 | every line of a stream is a maximal run free of CR and LF, at its own position |
| `Tokenizer.LinesOrdered` | internal/bp35c2/driver.go:275-294 | the lines are listed from left to right without overlap |
| `Tokenizer.RunIsLine` | internal/bp35c2/driver.go:275-294 | no maximal run is missing, including a final unterminated one |
| `Tokenizer.SplitAnywhere` | internal/bp35c2/driver.go:281-294 | cutting a stream in two changes neither its finished lines nor its unfinished one |
| `Tokenizer.LongRunStep` | internal/bp35c2/driver.go:245-246 | a run over the token limit appears in the stream exactly when the buffer of the scanner is full |
| `Tokenizer.LinesOfTerminated` | internal/bp35c2/driver.go:275-280 | any non-empty mix of CR and LF ends a line and adds no other |
| `Tokenizer.Scanner.Read` | internal/bp35c2/driver.go:249-257 | one read: delivers the lines it completes and keeps the rest, as the step function of the whole-stream theorem says |
| `Tokenizer.Scanner.Finish` | internal/bp35c2/driver.go:249-257 | end of input: the unterminated rest is delivered as a line |
| `Driver.BuildEPANDESC` | internal/bp35c2/driver.go:419-445 | the fields of a scan block: rows without a key are skipped, a repeated key takes its later value |
| `Driver.HandleConcat` | internal/bp35c2/driver.go:298-360 | handling lines is a fold: any split of the lines gives the same reader state |
| `Driver.Driver.constructor` | internal/bp35c2/driver.go:103-118 | an empty driver; a channel size of zero or less becomes 32 |
| `Driver.Driver.HandleLine` | internal/bp35c2/driver.go:298-360 | the new block, pending command, completed commands and the newest events of the channel are those of the pure reader step |
| `Driver.Driver.RouteLine` | internal/bp35c2/driver.go:322-359 | dispatch on the kind of line: terminators complete the command, event lines are pushed, the echo is skipped, other lines belong to the pending command or to nobody |
| `Driver.Driver.PushEvent` | internal/bp35c2/driver.go:378-392 | the channel keeps the newest events up to its capacity, in order |
| `Driver.Driver.CompletePending` | internal/bp35c2/driver.go:362-376 | empties the slot and records one outcome with the lines gathered so far; without a pending command nothing happens |
| `Driver.Driver.Install` | internal/bp35c2/driver.go:180-187 | claims the slot, or reports that it is in use and changes nothing |
| `Driver.NewestAgain` | internal/bp35c2/driver.go:378-392 | dropping the oldest step by step keeps the same events as dropping them at the end |
| `Driver.Driver.Command` | internal/bp35c2/driver.go:170-214 | one call and the lines that arrive meanwhile: it takes the slot, returns the one result its command got or none, and leaves the slot empty; with the slot in use it changes nothing |
| `Driver.LineEffect` | internal/bp35c2/driver.go:322-376 | a line changes nothing about the command in flight, or adds one response line, or completes it with the lines gathered so far |
| `LineKinds.OkCompletes` | internal/bp35c2/driver.go:323-327 | OK, and OK followed by any value, completes the command in flight with the lines it has so far |
| `LineKinds.FailCompletes` | internal/bp35c2/driver.go:328-330 | FAIL with any text fails it with that text, trimmed |
| `LineKinds.OnlyTerminatorsComplete` | internal/bp35c2/driver.go:322-359 | from any reader state: these lines and no others end a command |
| `LineKinds.OtherLinesAnswer` | internal/bp35c2/driver.go:341-358 | a line that is none of the named kinds is the echo, a response line of the command in flight, or for nobody |
| `LineKinds.BlockLines` | internal/bp35c2/driver.go:299-320 | a header opens a scan block, lines that start with a space or a tab join it, any other line emits it first |
| `LineKinds.NoticesPushed` | internal/bp35c2/driver.go:335-340 | for all words: EVENT, ERXTCP and ETIMER lines push exactly one event with that kind and these words, and change nothing else |
| `LineKinds.DatagramsPushed` | internal/bp35c2/driver.go:401-417 | for all words: an ERXUDP line pushes one event with these words and the ninth one decoded from hexadecimal |
| `LineKinds.RowsWithoutKey` | internal/bp35c2/driver.go:431-439 | blank rows and rows without a key change no field |
| `Demux.Demultiplexed` | internal/bp35c2/driver.go:298-376 | for any interleaving of events and scan blocks into a series of command transcripts, of which any may time out as long as its late lines come before the next command, without indented lines right after a block: each other command gets exactly its own lines and terminator, in order, the events are exactly the interleaved ones, and at most one trailing block is still waiting |
| `Demux.DemuxFrom` | internal/bp35c2/driver.go:298-376 | the same from any reader state |
| `Demux.FaithfulIff` | internal/bp35c2/driver.go:298-376 | for every transcript, with late lines at any time and any indentation, from any reader state: at every moment the command in flight, the results and the events are the right ones if and only if no line of a command right after a scan block is indented and every late line that meets a command in flight is a plain copy of its text |
| `Demux.SeparatesIff` | internal/bp35c2/driver.go:298-376 | with such late lines only, what commands and consumers have got in the end is right if and only if no line of a command right after a scan block is indented |
| `Demux.IndentedReplySwallowed` | internal/bp35c2/driver.go:306-311 | an instance for every command, block and indented line: the block takes the response |
| `Demux.LateEndMisattributed` | internal/bp35c2/driver.go:188-194 | an instance for all commands and terminators: a late terminator completes the next command, whose own terminator goes to nobody |
| `EventQueue.QueueSafety` | internal/bp35c2/driver.go:378-392 | every interleaving of one producer and a consumer: no event is turned away, the channel holds a contiguous newest part of the pushed events, what was received and what waits is in pushing order, at most one drop for each push, and the numbers add up |
| `EventQueue.UninterruptedPush` | internal/bp35c2/driver.go:378-392 | without a consumer in between, the channel operations of a push give the newest events that Driver.PushEvent promises |
| `EventQueue.PushedIsLast` | internal/bp35c2/driver.go:378-392 | whichever operation finishes a push leaves its event last in the channel |
| `EventQueue.ConsumerDrains` | internal/bp35c2/driver.go:139-140 | a consumer that reads the channel empty gets everything it held, in order |
| `CommandProtocol.ExactlyOnce` | internal/bp35c2/driver.go:121-243 | every interleaving of callers, reader, reader exit and Close: a command leaves the slot at most once, gets at most one result, no result is discarded, a response is what was attributed to it, and ErrBusy never happens |
| `CommandProtocol.SlotFree` | internal/bp35c2/driver.go:180-187 | whoever holds the command mutex and is about to claim the slot finds it empty |
| `CommandProtocol.WaitingIsServed` | internal/bp35c2/driver.go:200-213 | a waiting command owns the slot, or its result is with the reader, or in its channel |
| `CommandProtocol.WaitingCanMoveIff` | internal/bp35c2/driver.go:200-213 | a waiting call has a way to return by its own steps, none of them a time-out, if and only if its result is in its channel or the driver is closed |
| `CommandProtocol.ClosedNeverStuck` | internal/bp35c2/driver.go:121-137 | once the driver is closed, as long as a call has not returned some caller has a step that is no time-out |
| `CommandProtocol.CallersFinish` | internal/bp35c2/driver.go:170-214 | calls already made take a bounded number of steps, whatever reader and Close do |
| `CommandProtocol.AfterEndOfInput` | internal/bp35c2/driver.go:258-272 | every run after a clean end of input: a call that had not claimed the slot by then, or is made later, times out or fails to write in every continuation without Close; every continuation in which it ends otherwise contains Close, and there is one in which it then sees the driver closed |
| `CommandProtocol.EofLeavesOnlyTimeout` | internal/bp35c2/driver.go:258-272 | such a state is reachable, with a command that was issued afterwards |
| `CommandLines.LineIsSteps` | internal/bp35c2/driver.go:298-376 | handling one line is the corresponding steps of the read loop in the interleaving model, and both attribute it alike |
| `CommandLines.ClaimIsIssue` | internal/bp35c2/driver.go:180-187 | claiming the slot in the interleaving model is issuing the command to the reader |
| `CommandLines.CommandIsSteps` | internal/bp35c2/driver.go:170-214 | a whole call without interference is a run of the interleaving model from any reachable quiet state, and the call returns what Driver.Command returns |
| `Echonet.Encode` | internal/echonet/echonet.go:89-107 | produces the encoding of the frame, of exactly the precomputed size |
| `Echonet.Decode` | internal/echonet/echonet.go:110-144 | accepts and rejects as the recursive parser does, with the same error for each cause |
| `Echonet.NewGetRequest` | internal/echonet/echonet.go:149-161 | from the controller to the destination, service Get, one property without data for each requested code, in order |
| `Echonet.DecodeEncode` | internal/echonet/echonet.go:89-144 | an encodable frame followed by any bytes is decoded to itself |
| `Echonet.EncodeDecode` | internal/echonet/echonet.go:110-144 | whatever is accepted starts with the encoding of what is returned, and that frame is encodable |
| `Echonet.RoundTripIff` | internal/echonet/echonet.go:101-104 | encoding and decoding gives the frame back if and only if it has at most 255 properties of at most 255 bytes; Encode does not check that |
| `Echonet.DecodeIgnoresTail` | internal/echonet/echonet.go:110-144 | appended bytes do not change an accepted result |
| `Echonet.AcceptedExactly` | internal/echonet/echonet.go:110-144 | the accepted byte strings are exactly those that start with the encoding of an encodable frame |
| `Echonet.PrefixFree` | internal/echonet/echonet.go:89-144 | no encoding is a prefix of the encoding of another frame |
| `Echonet.EncodingBound` | internal/echonet/echonet.go:90-95 | size of an encoding, and its upper bound of 65547 bytes |
| `Echonet.RequestRoundTrip` | internal/echonet/echonet.go:149-161 | a Get request survives the codec exactly if it names at most 255 codes |
| `Echonet.HeaderByOffset` | internal/echonet/echonet.go:96-101 | the twelve header bytes of an encoding, by offset |
| `Echonet.PropertyByOffset` | internal/echonet/echonet.go:102-105 | code, length and data of each property, by offset |
| `Echonet.AcceptedByOffset` | internal/echonet/echonet.go:110-144 | what is read out of an accepted datagram, by offset, and which datagrams are too short or have the wrong header |
| `Echonet.RefusedByList` | internal/echonet/echonet.go:126-135 | a datagram that announces more properties than it holds: truncated, or data beyond the frame |
| `Echonet.RequestBytes` | internal/echonet/echonet.go:149-161 | the bytes of a Get request: header, identifier, controller as source, destination, service, and two bytes for each code |
| `Udp.IpRoundTrip` | internal/broute/udp.go:53-63 | a printed address can be read back and contains no white space |
| `Udp.ParseHexU16` | internal/broute/udp.go:97-115 | the low 16 bits of the hexadecimal number; anything but hexadecimal digits is rejected |
| `Udp.PortRoundTrip` | internal/broute/udp.go:97-115 | a port printed with four digits is read back |
| `Udp.PortByDigits` | internal/broute/udp.go:97-115 | each further digit shifts the port by four bits and the high bits fall out; the empty text is zero |
| `Udp.AddressIsUpper` | internal/broute/udp.go:53-63 | an address is eight groups of four upper-case digits with colons, never compressed |
| `Udp.SendUDP` | internal/broute/udp.go:24-51 | rejects an empty payload, more than 1232 bytes and bad addresses, in that order; otherwise a reader of the written bytes gets the address (IPv4 in mapped form), port 3610 and the payload, and CR LF is left |
| `Udp.WriteCommand` | internal/bp35c2/driver.go:216-229 | line, payload, CR, LF in one buffer |
| `Udp.SendToFraming` | internal/broute/udp.go:14-51 | a reader driven by the printed length recovers address, port 3610 and payload for every payload, and CR LF and all that follows stays |
| `Udp.SendToUnambiguous` | internal/broute/udp.go:14-51 | no written command is a prefix of a different one |
| `EndToEnd.FramesArrive` | internal/bp35c2/driver.go:245-294 | any list of datagrams carrying encoded frames, mixed with other lines, each ended by any CR/LF mix, the stream cut in any way, with commands issued and given up between any two lines: tokenizer, demultiplexer, datagram parser and decoder give exactly those frames in order, with sender and source port |
| `EndToEnd.EveryFrameTravels` | internal/bp35c2/driver.go:401-417 | every encodable frame has such a datagram, so the theorem is about all of them |
| `EndToEnd.LineFits` | internal/bp35c2/driver.go:245-246 | every datagram line stays below the token limit |
| `EndToEnd.DatagramLine` | internal/broute/udp.go:65-94 | one datagram line gets through whatever command is pending and whatever block is open |
| `EndToEnd.OtherLine` | internal/bp35c2/driver.go:322-359 | no other line delivers anything |
| `Mac.MacToLinkLocalIPv6` | internal/broute/mac.go:18-35 | accepts exactly 16 hexadecimal digits, with the error for each cause; writes prefix and address in place |
| `Mac.FlipIsXor` | internal/broute/mac.go:32 | the arithmetic bit flip used in the model is the exclusive or with 0x02 |
| `Mac.LinkLocalKeepsMac` | internal/broute/mac.go:28-33 | only one bit of the address changes and the address can be recovered (Appendix A of RFC 4291) |
| `Mac.JoinCommandNamesDevice` | internal/broute/connect.go:236-239 | the device address can be read back from the join command |
| `PropertyMap.DecodeGetPropertyMap` | internal/meter/epc.go:193-224 | short and long form with their truncation errors |
| `PropertyMap.RefusedMaps` | internal/meter/epc.go:194-210 | which maps are refused, and why; all others are accepted |
| `PropertyMap.BitWeight` | internal/meter/epc.go:214-218 | bit k of a mask byte is the one of weight 2^k |
| `PropertyMap.CodeBijection` | internal/meter/epc.go:211-221 | bitmap positions and codes 0x80..0xFF correspond one to one |
| `PropertyMap.MaskBits` | internal/meter/epc.go:211-221 | the mask of a set has exactly the bits of its members |
| `PropertyMap.LongFormRoundTrip` | internal/meter/epc.go:208-223 | the long form gives back every set of more than 15 codes |
| `PropertyMap.ShortFormRoundTrip` | internal/meter/epc.go:199-207 | every set of at most 15 codes can be listed, and every listing of it without repetition is decoded to the set |
| `PropertyMap.LongFormExact` | internal/meter/epc.go:208-223 | the decoded set determines the mask; the count byte is not compared with it |
| `Scan.ScanChoice` | internal/broute/connect.go:152-182 | the choice is the earliest beacon of greatest link quality; it fails exactly if no readable beacon came before the end, and tells a finished scan from one that ran out of time |
| `Scan.RowReadBack` | internal/bp35c2/driver.go:431-443 | a printed row is read back with any indentation and padding |
| `Scan.DescriptorReadBack` | internal/broute/connect.go:184-220 | rows that spell out a descriptor are parsed to that descriptor |
| `Scan.BeaconReadBack` | internal/broute/connect.go:184-220 | a printed block becomes an event that is parsed to its descriptor |
| `Scan.StandardBlock` | internal/bp35c2/driver.go:419-428 | the documented block layout is such a block for every descriptor |
| `Scan.DocumentedBlock` | internal/bp35c2/driver.go:419-428 | the documented block, line by line, is read as its descriptor |
| `Scan.RefusedBeacons` | internal/broute/connect.go:184-206 | what a beacon is refused for, field by field |
| `Scan.NoQuality` | internal/broute/connect.go:207-212 | without a readable link quality below 256 a beacon counts as zero |
| `Scan.EndLine` | internal/broute/connect.go:167-168 | among event lines exactly those with code 22 end a scan, whatever follows the code |
| `Scan.ScanFindsBest` | internal/broute/connect.go:152-182 | lines of any scan blocks and the end line, through the demultiplexer and the choice: the earliest strongest descriptor, or no meter exactly for no descriptor |
| `Supervisor.SessionsAreEarned` | internal/broute/connect.go:32-96 | every installed session was earned within one attempt: nine commands in order, all but WOPT and ROPT successful, the beacon chosen from what that attempt received, EVENT 25 first into its own join channel, and session fields those of the beacon |
| `Supervisor.SessionsReadBack` | internal/broute/connect.go:36-88 | for every installed session, the log replayed on the registers of a module, with literal command names: password, Route-B ID, mask and duration are the configured ones, hexadecimal reception was asked for before the scan, register S2 holds the channel, S3 the PAN, and the joined address is that of the session; the nine commands came in order |
| `Supervisor.ScriptReadsBack` | internal/broute/connect.go:36-88 | the same for any log of the command script |
| `Supervisor.OneJoinPerSession` | internal/broute/connect.go:225-234 | different sessions come from different join channels, so no success counts twice |
| `Supervisor.FirstLookedUpDecides` | internal/broute/connect.go:225-256 | a join takes as its outcome exactly the first event looked up for a join after its channel was opened, whether or not SKJOIN had been sent by then |
| `Supervisor.EarlySuccessCounts` | internal/broute/connect.go:226-241 | from every reachable state where a join is about to begin: an EVENT 25 handled before SKJOIN is issued installs the session |
| `Supervisor.OutcomesOnly` | internal/broute/connect.go:249-252 | only EVENT 24 and 25 enter a join channel, so the parameter read there exists |
| `Supervisor.SessionState` | internal/broute/manager.go:178-216 | a session is set exactly from installation to removal, and then the state is Joining or Connected |
| `Supervisor.StatesShown` | internal/broute/manager.go:183-208 | the state that is shown in each phase of connecting, being up and disconnecting |
| `Supervisor.ChosenHasAddress` | internal/broute/connect.go:200-206 | a chosen beacon always yields a link-local address |
| `Supervisor.TuningLeadsToJoin` | internal/broute/connect.go:75-84 | hence the address error between tuning and joining is unreachable |
| `Supervisor.NoLostWakeup` | internal/broute/manager.go:154-172 | one supervisor and any number of waiters: no channel is closed twice, a captured channel is closed or current, after installation every blocked waiter can wake, and only installed sessions are returned |
| `Supervisor.WaiterServed` | internal/broute/manager.go:154-172 | while a connection stays up a waiter needs at most three steps of its own, always has one until it is done, and gets the installed session |
| `Supervisor.ForwardedIff` | internal/broute/manager.go:270-282 | an event is forwarded if and only if the supervisor is in the section that waits for its kind |
| `Supervisor.RoutesByCode` | internal/broute/manager.go:299-346 | which event codes reach the scan, the join and the disconnect channel; everything else reaches nobody |
| `Supervisor.LossEndsConnection` | internal/broute/manager.go:326-337 | EVENT 24, 27, 28 or 29 handled while up: after the steps of the dispatcher the supervisor can take it, and stops being up |
| `Supervisor.LossIsActedOn` | internal/broute/manager.go:252-268 | a forwarded disconnect is acted on: once sent, and as long as the supervisor is up, it can be taken, and that ends the connection |
| `Supervisor.DisconnectCanBeLost` | internal/broute/manager.go:274-276 | a run in which a disconnect arrives too early and the supervisor waits with nothing to receive |
| `Supervisor.CanConnect` | internal/broute/connect.go:32-96 | for every readable beacon there is a run that installs the session with the address, channel and PAN of that beacon |
| `Supervisor.BackOffOnlyAfterFailure` | internal/broute/manager.go:180-216 | a step enters the back-off if and only if a mandatory command, the scan or the join fails; there is no session then; after a disconnect the next attempt starts at once |
| `Manager.Manager.constructor` | internal/broute/manager.go:115-146 | scan defaults, no session, no channel from the dispatcher, an open channel for waiters |
| `Manager.Manager.Dispatch` | internal/broute/manager.go:284-346 | each channel gets the event exactly if it is there, has room and the event is routed to it; datagrams go to the incoming queue while it has room |
| `Manager.Manager.Listen` | internal/broute/manager.go:374-385 | with events dispatched one after the other, the receiver gets the first one routed to it |
| `Manager.Manager.ActiveScan` | internal/broute/connect.go:120-182 | through its own channel, the scan returns the choice among all events that arrive, and leaves no channel behind |
| `Manager.Manager.DoJoin` | internal/broute/connect.go:225-256 | joins exactly if SKJOIN is accepted and the first outcome that arrives is EVENT 25, and leaves no channel behind |
| `Manager.Manager.ConnectOnce` | internal/broute/connect.go:32-96 | on raw event streams: succeeds exactly if all mandatory commands do, the scan events hold a beacon and the first join outcome is EVENT 25; then the session is that of the earliest strongest beacon, and the commands replayed on the registers of a module read back as configuration and session |
| `Manager.Manager.RunOnce` | internal/broute/manager.go:180-216 | one pass of the loop: a connection installs and later clears the session, whoever captured the channel finds it closed, the next one is open, so no pass closes a channel twice; a failed attempt changes neither session nor channel |
| `Manager.ChooseFirst` | internal/broute/connect.go:154-174 | events that are not forwarded to the scan would not change its choice |
| `Manager.DispatchIsSteps` | internal/broute/manager.go:299-385 | in any reachable state, one dispatched event is the lookups and sends of the transition system without interference |
| `Manager.MethodsAreSteps` | internal/broute/manager.go:219-250 | in any reachable state, installing and clearing a session are two steps each, setting the state, opening and closing a channel are single steps, on all fields; commands, time-outs and waiters leave the fields alone |
| `Manager.FirstOfferStays` | internal/broute/connect.go:226 | a join channel keeps the first outcome offered to it |
| `Meter.Client.TakeTid` | internal/meter/meter.go:97-100 | the next counter value, never an identifier of zero |
| `Meter.Client.Claim` | internal/meter/meter.go:60-77 | a datagram that decodes to a frame somebody waits for is claimed and its entry removed; all others change nothing |
| `Meter.TidFormula` | internal/meter/meter.go:97-100 | call number k gets ((k + 1) mod 65535) + 1, across the 16-bit cut and the 32-bit wrap |
| `Meter.TidsDistinct` | internal/meter/meter.go:97-100 | any 65535 consecutive calls have different identifiers, and the next one repeats |
| `Meter.WrapInvisible` | internal/meter/meter.go:97-100 | the 32-bit wrap of the counter does not show in the low 16 bits |
| `Meter.MapSafety` | internal/meter/meter.go:68-128 | every interleaving: the map names only calls in flight with empty channels, and the dispatcher never blocks in its send |
| `Meter.CallSafety` | internal/meter/meter.go:68-128 | every interleaving: at most one frame reaches a call, a returned frame carries its identifier, a finished call leaves no entry, and a waiting call is remembered if and only if no other call with its identifier entered or left the map while the entry was its own |
| `Meter.RecentNeverClashes` | internal/meter/meter.go:97-100 | identifiers in flight differ as long as no call has been in flight while 65536 further numbers were taken |
| `Meter.RecentNeverForgets` | internal/meter/meter.go:97-128 | in a run in which that is always so, a waiting call is never forgotten |
| `Meter.ClashReachable` | internal/meter/meter.go:97-107 | a run in which the counter comes round and two calls are in flight under one identifier |
| `Meter.SharedTidLosesEntry` | internal/meter/meter.go:104-112 | in any run: if another call with its identifier enters or leaves the map before its frame is claimed, a call gets no frame in any continuation |
| `Meter.Client.Get` | internal/meter/meter.go:88-128 | one call while datagrams arrive: the request by byte offset, under a fresh identifier and addressed to the smart meter, the answer, and a map without its entry; without codes nothing happens |
| `Meter.ServedFirst` | internal/meter/meter.go:60-77 | the answer is the first datagram that decodes to a frame with the identifier of the call |
| `Meter.TakingIsNumbering` | internal/meter/meter.go:97-100 | the counter of the object is the counter of the interleaving model |
| `SeriesKey.SeriesKeyOf` | internal/sink/prometheus.go:133-151 | walking the tags in any order gives the same key |
| `SeriesKey.SortSorts` | internal/sink/prometheus.go:141 | sorting keeps exactly the keys and orders them |
| `SeriesKey.LessIsLexicographic` | internal/sink/prometheus.go:141 | the order of tags is that of their bytes |
| `SeriesKey.KeyOfTwo` | internal/sink/prometheus.go:142-150 | the text of a key with two tags |
| `SeriesKey.SortedUnique` | internal/sink/prometheus.go:141 | a sorted list is determined by its members |
| `SeriesKey.KeysIdentifySeries` | internal/sink/prometheus.go:133-151 | equal keys of clean series (no bar in name and values, no equals sign in tag names) mean equal name and equal tags |
| `SeriesKey.NameBarCollides` | internal/sink/prometheus.go:144-149 | why no bar in names: for every name, tag and value there are two series with one key |
| `SeriesKey.ValueBarCollides` | internal/sink/prometheus.go:144-149 | why no bar in values: for every name, two ordered tags and values there are two series with one key |
| `SeriesKey.KeyEqualsCollides` | internal/sink/prometheus.go:144-149 | why no equals sign in tag names: for every name and parts there are two series with one key |
| `SeriesKey.BarCollides` | internal/sink/prometheus.go:133-151 | one such pair written out |
| `Downsample.UnixAlignedIff` | internal/sink/downsample.go:123 | windows are aligned to the Unix epoch exactly if the window divides the distance between the two origins |
| `Downsample.SevenSecondsMisaligned` | internal/sink/downsample.go:75 | a window of seven seconds is not |
| `Downsample.MaxMeaning` | internal/sink/downsample.go:201-207 | the maximum is a sample and no sample is greater |
| `Downsample.MinMeaning` | internal/sink/downsample.go:208-214 | the minimum is a sample and no sample is smaller |
| `Downsample.AggregateInRange` | internal/sink/downsample.go:185-231 | every aggregate but the sum lies between the smallest and the greatest sample |
| `Downsample.OneSample` | internal/sink/downsample.go:193-221 | every aggregate of one sample is that sample |
| `Downsample.TwoGroups` | internal/sink/downsample.go:193-221 | sums add up over two groups put together, means do when weighted by the lengths, and the last sample is that of the second group |
| `Downsample.SummaryLaws` | internal/sink/downsample.go:189-230 | an emission: identity of the first sample, a multiple of the window around its own timestamp, the last sample for counters and the configured aggregate otherwise |
| `Downsample.SummaryOfTwo` | internal/sink/downsample.go:193-218 | the same laws for sum and mean on emissions |
| `Downsample.GroupsAreGrouping` | internal/sink/downsample.go:126-153 | the reference: samples cut into maximal runs of one window |
| `Downsample.GroupingUnique` | internal/sink/downsample.go:126-153 | there is only one such cut |
| `Downsample.OrderedGroups` | internal/sink/downsample.go:222-223 | there is one group for each window with samples, in ascending order and with all samples of its window, if and only if no sample goes back to an earlier window; so for samples in time order |
| `Downsample.ReturningSample` | internal/sink/downsample.go:128-143 | a sample that goes back to a window after one of another window: that window comes out twice |
| `Downsampler.Downsampler.FinishLocked` | internal/sink/downsample.go:183-231 | the last sample for counters, and otherwise sum, mean, maximum, minimum or last as configured; nothing for an empty buffer |
| `Downsampler.Downsampler.Write` | internal/sink/downsample.go:119-160 | pushes out the buffer of another window, then records the sample; the buffer it joins is that of the window around its own timestamp, or around the clock if it has none; other buffers do not change |
| `Downsampler.Downsampler.FlushIdle` | internal/sink/downsample.go:244-259 | exactly the buffers without a sample for one and a half windows are emitted once and dropped, the others stay |
| `Downsampler.Downsampler.Close` | internal/sink/downsample.go:164-181 | every buffer is emitted once and none is left |
| `Downsampler.OnlineIsBatch` | internal/sink/downsample.go:119-160 | without idle flushes, for any interleaving: what was pushed out under a key and what is buffered is exactly the reference grouping of the samples with that key |
| `Downsampler.OneEmissionPerWindow` | internal/sink/downsample.go:222-223 | the emissions of a series (name and tags) over a whole run up to Close: at multiples of the window, and one for the window around the timestamp of each sample; at strictly increasing times if and only if no sample goes back to an earlier window, and then each is the aggregate of all samples of its window |
| `Downsampler.RunOutput` | internal/sink/downsample.go:119-181 | the measurements handed over for a series (name and tags) in a whole run up to Close are the aggregates of the reference groups of that series alone, in order, all under its name and tags |
| `Downsampler.KeySelectsSeries` | internal/sink/downsample.go:124 | among clean samples the key picks out exactly the samples of one name and tag map |
| `Downsampler.SummariesOfSeries` | internal/sink/downsample.go:224-230 | an emission carries the identity of its series |
| `DownsampleRuns.ConservedIff` | internal/sink/downsample.go:126-181 | any number of writers, idle flushes and Close: every sample is accounted for as often as it was written if and only if no buffer that holds it was overwritten |
| `DownsampleRuns.Conservation` | internal/sink/downsample.go:126-181 | with one writer nothing is ever lost or doubled |
| `DownsampleRuns.DrainedTotals` | internal/sink/downsample.go:164-181 | after Close and the flusher have handed over all they took, the emitted groups of a series hold exactly its samples; for sums the totals of every series that is no counter agree, whatever else is a counter |
| `DownsampleRuns.SameTotal` | internal/sink/downsample.go:215-218 | a sum of reals does not depend on the order |
| `DownsampleRuns.UninterruptedWrite` | internal/sink/downsample.go:119-160 | the critical sections of one Write without interference add up to Downsampler.Write |
| `DownsampleRuns.TwoWritersLose` | internal/sink/downsample.go:132-152 | two writers of one series: a run that loses a sample |
| `DownsampleRuns.OncePerWindowIff` | internal/sink/downsample.go:126-181 | every run of one writer with idle flushes and Close: the groups of each series, emitted, taken out or buffered, have pairwise different windows if and only if no Write brings a sample into a window of its series that was already taken out |
| `DownsampleRuns.EmissionsDifferIff` | internal/sink/downsample.go:222-223 | the same on what was handed over once everything is: emissions of one series have different timestamps |
| `DownsampleRuns.IdleFlushSplitsWindow` | internal/sink/downsample.go:237-261 | a run in which an idle flush between two samples of a window splits it |

## Left out

- ChunkIndependence: does not model bufio's limit on successive empty reads; a read is assumed to fit into the free part of the buffer, as it does in bufio.
- FramesArrive: does not include drops by a full event or incoming channel, which QueueSafety and Dispatch describe; IPv6 senders are in the full form.
- Demultiplexed: does not cover transcripts in which a late line meets the next command or an indented line follows a scan block; FaithfulIff covers all of them and says exactly when attribution is right.
- ScanFindsBest: does not include a scan event that is dropped when the scan channel stays full for 50 ms; the Supervisor module has such drops.
- RunOutput: does not cover series whose names, tag names or values are not clean, for which OnlineIsBatch speaks about keys.
- KeysIdentifySeries: does not cover names and values with a bar or tag names with an equals sign, because each of these lets keys collide (NameBarCollides, ValueBarCollides, KeyEqualsCollides).
- OneEmissionPerWindow: does not cover runs with idle flushes; OncePerWindowIff says exactly when those keep one emission for each window.
- Conservation: does not cover several writers of one series, because a sample can then be lost (TwoWritersLose); ConservedIff says exactly when.
- DrainedTotals: does not model the rounding of floating-point sums.
- ActiveScan and DoJoin of the manager object: events arrive while it waits, not while its command is outstanding, and the short blocking wait of a scan notification is left out; the Supervisor module has both, because there every step may come at any time.
- Fields and TrimSpace in Text: white space beyond ASCII.
- Difference between a nil and an empty byte slice in a property without data.
- sort.Strings, net.ParseIP, hex and strconv are modelled by what they compute, not by their code.
- Blocking of the serial write and the order of writes of different commands beyond the command mutex.
- The back-off times of the supervisor and their doubling, and State.String.
- The callbacks on reconnect and authentication failure, logging and redaction of credentials.
- NewSetCRequest and IsSNA: single expressions. SetC goes through the same steps as Get.
- The scalar property decoders and CumulativeKWh in the meter package: single branches or floating point.
- Sinks for InfluxDB, standard output and the HTTP part of Prometheus, the metrics registry: calls into libraries; the inner sink of the aggregator is a log of measurements.
- Configuration, the collector loop and the main program: input, output and wiring.
