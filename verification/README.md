# A verified model of tsshd's session machinery

tsshd keeps a terminal session alive while its client disconnects, changes address and
comes back. This project models the state machines that decide whether output is lost,
duplicated or reordered on the way, and proves what they promise, for every input, every
schedule and every reachable state.

| part | files | source |
|---|---|---|
| server output forwarder | OutputLog, OutputCache, OutputForwarder, OutputForwarderProofs, OutputForwarderSafety, OutputReports, OutputWarnings, OutputDiscards, OutputTurns | tsshd/output.go, tsshd/tmuxcc.go |
| client marker search, and a discard from end to end | MarkerSearch, MarkerRuns | tsshd/output.go |
| wire-rate pacer | WirePacer | tsshd/output.go |
| key rotation | Rekey, RekeyProtocol | tsshd/rekey.go |
| roaming UDP endpoint and its handshake | RoamingProxy, RoamingRuns, ProxyHandshake | tsshd/proxy_server.go, tsshd/proxy_client.go |
| session ownership | Attach, AttachRuns | tsshd/attach.go, tsshd/server.go, tsshd/bus.go, tsshd/session.go |
| replaceable streams | ReplaceableStream | tsshd/attach.go, tsshd/proto.go |
| timeout checker | TimeoutChecker | tsshd/comm.go |
| small algorithms | MarkerIndex, ProcessTree, Wildcard | tsshd/session.go, tsshd/comm.go, tsshd/sshd_config.go |

`dafny verify dfyconfig.toml` checks everything.

## How it is built

Code that updates fields in place is a class whose methods are proved against functions on
values (`PendingOutput`, `RotatingCrypto`, `UdpFrontend`, `Hub`, `Pacer`, `ClientForwarder`,
`Markers`). Code that runs concurrently is a machine: a state, the actions that can happen
in it, and `Next`. A run is a sequence of states from the initial one, so a theorem with
`IsRun(states)` speaks of every interleaving. A step is one statement or one critical
section; "Left out" lists the steps that touch more than one thing others may change.

**Output forwarder.** The reader, the writer, any number of reconnect callbacks and the
shutdown share one mutex and one processing token. Ghost history is an edit log: chunks
appended (with the marker echoed in front), cursor-position requests stripped from cached
lines, and dropped runs replaced by a report. `Replay` makes the log into a stream. A run
is good as long as no write to the client has failed and no wait for the client was cut
short by closing its checker; the losses of other runs are not counted by the program.
Whether pending output is kept and whether a wait for the queue times out are choices of
the environment.

**Steps and what they come to.** Where code is taken apart into steps, a second account says
what the steps of one operation come to with nobody in between, in terms of bytes, addresses
or owners: `OutputTurns` for a chunk and a flush, `UndisturbedIsReceived` for a packet,
`UndisturbedAttach`, `UndisturbedDetach` and `UndisturbedTakeover` for session ownership. And
where a machine reacts to events, its state is tied to the history of those events:
`FlagFollowsEvents`, `SwapsTakeEffect`, `RequestsStand`, `Carry`.

**Key rotation.** AEAD and ECDH are ideal: a packet opens under exactly the key that sealed
it, and both ends derive the same key from a pair of private numbers. The proof establishes
that both ends combine the same pair.

**Roaming proxy.** Any packet may come from any address. An authentication packet is opened
correctly or not at all. In `ProxyHandshake` only clients make authentication packets, and
a relation says which clients have sockets behind which address: acknowledgements do not
name the client they are for.

**Timeouts and clocks** are parameters: the time of an event, or how much later than asked
a sleep ended.

## Where the code and its comments part

- A timeout is said to remove only the transport it observed (tsshd/server.go:169-170). With
  nothing observed the old address passed on is nil, which is an unconditional swap.
  `TimeoutRemovesObserved` gives the exact condition, `NilObservationRemovesNewer` a case.
- The pacer is said never to grant more than one burst and the rate over a window
  (tsshd/output.go:346-347). A call may forgive half a byte, as `HalfByteForgiven` does.
  `WindowBound` gives the bound that always holds, the exact account of a window, and with
  it the exact condition for the bound as stated. The debt loop ends exactly when truncation
  to nanoseconds leaves at most half a byte (`LoopEndsIff`). Up to 5·10^8 payload bytes a
  second that is always so (`SlowRatesEnd`); beyond, some rates have calls that never return
  (`NeverReturns`) and others have none (`WholeDebtEnds`).
- When a second rekey is completed before the client has dropped its older keys, a late packet
  can take the client back to a key that the server has dropped (`UplinkCanClose`).
  `UplinkOpenIff` says which packets do this, and that nothing else does.
- A session started by a server that is replaced meanwhile belongs to an inactive server
  (`LateStartUnsettles`); `StartKeepsIff` gives the exact condition for one start and
  `KeptIffTimely` for whole runs.
- A client closed while one of its packets is handled can be left with an address that the
  maps do not know (`ClosedWhileHandled`). `OwnedIff` says exactly when that happens, and
  `LookupIsScanIff` when such a stray address makes the lookup differ from the scan.
- Clients accept only paths recorded for them exactly when no two of them share an address
  (`RecordedIffExclusive`), and so for the mismatch that should not happen
  (`MatchesIffExclusive`).
- A pattern's regular expression does not let a wildcard stand for a newline;
  `GlobEverywhereIff` says for which patterns that makes no difference.
- The search for descendants never ends when the root is its own ancestor (`CycleNeverEnds`).
- One correction makes a discard-marker index clean whatever the previous index was.

## Model

| member | source | states |
|---|---|---|
| OutputForwarderSafety.StreamIsWhole | tsshd/output.go:421-702 | In every reachable state of a good run the accepted stream is, in order, what the writer took, the queued buffer, one run of dropped lines, the cached lines and the bytes in the owner's hands; the two counters are exactly that run's lines and bytes, and a non-zero count implies a non-empty cache |
| OutputForwarderSafety.TokenExcludes | tsshd/output.go:185-233 | Over every interleaving at most one goroutine holds the processing token, and then the flag is set |
| OutputForwarderSafety.NoSendAfterClose | tsshd/output.go:704-764 | No goroutine that is about to send on or receive back from the queue finds it closed |
| OutputForwarderSafety.NothingStranded | tsshd/output.go:569-587 | In a good run, when nobody processes, the client is connected, the forwarder has not returned and no callback is left, the cache is empty and nothing is unreported (release of the token at 198-212) |
| OutputForwarderSafety.ReturnedIsComplete | tsshd/output.go:704-764 | When `forward` returns after a good run, the writer has written the replay of the edits on exactly everything that was read (writer at 403-419) |
| OutputForwarderSafety.DeliveredFaithfully | tsshd/output.go:472-764 | What was written is the child's output with runs removed and text injected, nothing reordered, repeated or altered, and every missing byte is in a report or in a stripped request (writer at 403-419) |
| OutputForwarderSafety.SomeoneGoesOn | tsshd/output.go:185-233 | In every reachable state, until `forward` returns, the reader, the owner of the token or the writer can take a step, and the rest of the server may act at any time (shutdown at 704-716, writer at 403-419) |
| OutputDiscards.DiscardsOnRequest | tsshd/output.go:589-619 | Over every run: cached output is thrown away unseen exactly where a pending marker is taken, a discard that was asked for is honoured, or a redraw succeeds after an overflow, and then all of it; a warning is queued exactly where a flush offers it to a free queue; and lines are dropped only from a cache that is left full (redraw at 478-485, overflow at 449-469) |
| OutputDiscards.HonouredOnce | tsshd/output.go:593-619 | Output is thrown away unseen no more often than markers and discards were asked for and redraws succeeded or armed the flag: every call is honoured once at most |
| OutputDiscards.RequestsStand | tsshd/output.go:593-619 | The client is away exactly from a disconnection to the next reconnection, a marker stands from its request until it is taken, a discard from its request or an arming redraw until it or a marker is honoured |
| OutputDiscards.LossesAreAnnounced | tsshd/output.go:472-567 | While nobody calls for a discard and no redraw succeeds or arms one, every run of lines that is missing has its warning, with its counts, in the stream |
| OutputDiscards.NothingIsLost | tsshd/output.go:421-702 | While nobody calls for a discard: the history holds nothing but chunks taken in and cursor requests stripped, with nothing left to report, if and only if no line was ever dropped |
| OutputDiscards.DropsOnlyWhenFull | tsshd/output.go:449-469 | In a run whose cache never holds as many lines as it may no line is dropped |
| OutputDiscards.ReturnsEverything | tsshd/output.go:421-764 | A run without calls and without a dropped line, returning well, has written everything it read with cursor requests taken out one after the other, and nothing else |
| OutputDiscards.ConnectedGetsAll | tsshd/output.go:589-764 | While the client was never away and asked for no marker, what was passed on and is in hand is the child's output byte for byte, and at return all of it was written |
| OutputDiscards.ReadsEverything | tsshd/output.go:722-760 | What a run has read is exactly what the reader was given, chunk after chunk |
| OutputDiscards.EndsWhenGivenNothing | tsshd/output.go:722-760 | The reader comes to the end of its input exactly where it is given nothing |
| OutputDiscards.GoodUntil | tsshd/output.go:403-419 | A run stays good until, and only until, a write fails or a wait for the client is cut short (waits at 655-668 and 704-720) |
| OutputTurns.ChunkBegins | tsshd/output.go:589-619 | Whatever the state, a chunk begins by taking back both requests and, if there was one, by emptying all that is held back; queue and writer are untouched |
| OutputTurns.AwayTurn | tsshd/output.go:621-702 | A chunk while the client is away never makes the child wait: it is held back whole exactly when a newline was passed, lines are cached or patience is at its end; otherwise the queue ends with the first newline of its content and the chunk together, the rest is held back, and the newline flag and the count of chunks without one are what that calls for |
| OutputTurns.PresentTurn | tsshd/output.go:621-702 | A chunk while the client is there, or its output is kept: behind cached lines it is cached and flushed, else queued whole, else it waits for the queue or for the client with nothing changed, or is given up when the forwarder has returned or a write failed |
| OutputTurns.OneFlush | tsshd/output.go:472-547 | A flush changes nothing while the client is away or with nothing cached; otherwise it passes on the warning, if lines were dropped, and every cached line without its cursor requests, in order, and leaves the cache empty, unless a redraw after an overflow makes it clear everything |
| OutputTurns.ThreeChunksPass | tsshd/output.go:632-649 | From a fresh cache, with the queue drained between them, the first three chunks without a newline pass while the client is away and all later ones are held back |
| OutputTurns.StartsFresh | tsshd/output.go:147-183 | Every run starts with such a cache, and good |
| OutputTurns.FlushFindsQueueTaken | tsshd/output.go:520-544 | A flush that finds the queue taken stops when the client is away, keeping the line in hand and those behind it, and otherwise sleeps with the mutex released, or stops when nobody will drain the queue |
| OutputTurns.EnqueueFindsQueueTaken | tsshd/output.go:214-233 | What was taken back and finds the queue taken again sleeps, or is given up when nobody will drain it |
| OutputTurns.WakesUp | tsshd/output.go:655-668 | A thread that wakes up takes the mutex and tries again with what it held, unless it waited for the client in vain, which is remembered |
| OutputTurns.EndOfInput | tsshd/output.go:704-720 | After the end of input the reader is done when nothing is cached or a write failed; else it waits for an absent client, and flushes to one that is there |
| OutputReports.ReportsAreHonest | tsshd/output.go:472-567 | In every run, good or not, every report carries the counts of exactly the whole lines it stands for, a warning's text shows those counts, and what is dropped and not yet reported is counted exactly |
| OutputReports.ReportCanBeRead | tsshd/output.go:497-511 | The lines and bytes missing where a warning stands can be read off its text |
| OutputWarnings.WarningReads | tsshd/output.go:497-511 | A parser of decimal numbers reads both counters back from every warning, on a terminal and through tmux, for which it is one well-formed notification |
| OutputWarnings.WarningEnds | tsshd/output.go:502-505 | On a terminal the warning ends as the first cached line does: with a carriage return if that does, else with a newline |
| OutputWarnings.EscapeRoundTrips | tsshd/tmuxcc.go:59-72 | Undoing the octal escapes of a tmux notification gives back every output |
| OutputWarnings.PlainStays | tsshd/tmuxcc.go:59-72 | Text that needs no escape is left as it is |
| OutputWarnings.OffsetIsPane | tsshd/tmuxcc.go:38-43 | A line is a notification exactly when it begins as one, and then the offset is that of the pane's name |
| OutputWarnings.PrefixNamesPane | tsshd/tmuxcc.go:32-57 | The prefix names the pane of the first cached line that names one and is the tenth notification or a later one, and is empty exactly when there is none |
| OutputReports.LinesBoundNewlines | tsshd/output.go:421-447 | The number of lines in a run bounds the newlines it holds |
| OutputLog.Accounting | tsshd/output.go:472-567 | Bytes in the stream, in reports and in stripped requests add up to the bytes of the child and the injected ones |
| OutputLog.ReplayFaithful | tsshd/output.go:421-567 | The stream of any valid log takes its child bytes from strictly increasing positions of the child's output |
| OutputLog.FaithfulMeansInOrder | tsshd/output.go:421-567 | Of two bytes of such a stream the later one was written later by the child, and each is the byte at its position |
| OutputLog.StripLength | tsshd/output.go:472-548 | Removing cursor-position requests shortens a line by four bytes for each |
| OutputCache.AddLinesFlat | tsshd/output.go:421-447 | Splitting a buffer into cached lines neither loses nor moves a byte |
| OutputCache.AddLinesAreLines | tsshd/output.go:421-447 | Every cached line has a newline at its end or not at all |
| OutputCache.AddLinesSplits | tsshd/output.go:421-447 | However a stream is cut into calls, a line ends only with a newline, with a carriage return that no newline follows, or once it is long; and a line that is long, or not the last, is never changed |
| OutputCache.ReturnsEndLines | tsshd/output.go:422-437 | Output without newlines is cut at every carriage return |
| OutputCache.DroppedBy | tsshd/output.go:421-470 | What a call drops is the oldest lines, counted exactly; the rest and the dropped run are the old lines and the new buffer |
| OutputCache.Cached | tsshd/output.go:421-470 | A call leaves at most as many lines as the limit, 1000 or twice the terminal's rows, whichever is more, and a cache that had or got bytes is not empty |
| OutputCache.PendingOutput.CacheOutput | tsshd/output.go:421-470 | The loops in place do what `Cached` says |
| OutputCache.PendingOutput.AppendLines | tsshd/output.go:424-447 | The splitting loop in place does what `AddLines` says |
| OutputCache.PendingOutput.ClearOutput | tsshd/output.go:549-567 | Clearing empties the cache and reports all lines and bytes dropped since the last report |
| MarkerSearch.ClientForwarder.Forward | tsshd/output.go:55-130 | With no marker awaited every byte is handed on; from whatever state a marker was asked for in, and for every cutting of the stream into reads, the caller gets exactly what follows the first marker in what was held and what was read, with one report on all that was let go; from a failing pipe, a proper beginning of that |
| MarkerSearch.ClientForwarder.constructor | tsshd/output.go:36-53 | A forwarder begins with no marker to wait for and nothing held, written, counted or told |
| MarkerSearch.ClientForwarder.Handle | tsshd/output.go:66-124 | One read extends this by its bytes; a marker stored while it is handled keeps what follows the one just found, unwritten and counted, for the search for the new one |
| MarkerSearch.ClientForwarder.StoreMarker | tsshd/output.go:71-115 | A marker asked for at any time starts a search in what is held then, on top of what was written, told and counted |
| MarkerSearch.FreshOutcome | tsshd/output.go:55-130 | From the beginning that is what follows the first marker, and a report with the prefix's bytes and newlines plus one |
| MarkerSearch.TailSuffices | tsshd/output.go:72-114 | Searching the tail of one byte less than the marker together with the next read finds what a search of the whole stream finds |
| MarkerRuns.InjectedMarkerCuts | tsshd/output.go:589-702 | Over every run of the server's forwarder: a client asks for a marker in mid-session, the server echoes it in front of a chunk, and the client stays connected. Whatever the client had let go of by then and however the rest is cut into reads, the search finds nothing until the marker has arrived, then the child's output from that chunk on with one report on what was before it, and all of that output when the forwarder returns (client at 64-118) |
| MarkerRuns.Discards | tsshd/output.go:55-130 | The client's forwarder itself, whatever it was doing when asked, adds exactly that output to what the caller has and that report to what the client was told; from a failing pipe less (asked at tsshd/client.go:1420-1443) |
| MarkerRuns.ConnectedLog | tsshd/output.go:589-702 | From the echo on, while the client is connected, the forwarder caches nothing and its log only takes in chunks |
| WirePacer.Pacer.Wait | tsshd/output.go:355-401 | The balance left is exactly what was refilled, less what is taken, and what was slept off, with at most half a byte of debt forgiven; it stays within zero and one burst; the call keeps within refill and rate if and only if the debt forgiven is covered by sleeping late; passes and total sleep are bounded by the deficit, a pass sleeps a second at most, and a burst on first use or after one token interval is not delayed |
| WirePacer.CallAccount | tsshd/output.go:361-400 | A call grants exactly what its balance lost, time brought and noise forgave, less what was wasted above the burst or by sleeping late |
| WirePacer.Serve | tsshd/output.go:335-401 | The calls of all forwarders in turn, up to one that never returns: between any two returns that account adds up, and they granted at most one burst, the rate over the elapsed time and half a byte each |
| WirePacer.WindowBound | tsshd/output.go:335-401 | For such calls the bound in payload and, by the configured budget, in bytes on the wire; and burst and rate alone bound them if and only if what was forgiven is made up for by what was wasted, what the bucket lacked first and what it held last |
| WirePacer.LoopEndsIff | tsshd/output.go:378-400 | The debt loop ends if and only if the deficit's remainder below one nanosecond's payload is at most half a byte, then within one pass a second and one more |
| WirePacer.SlowRatesEnd | tsshd/output.go:378-400 | Up to 5·10^8 payload bytes a second every debt ends |
| WirePacer.PositiveSleepIff | tsshd/output.go:383-393 | Every deficit above half a byte gives a positive sleep if and only if the rate is at most 5·10^8 |
| WirePacer.NeverReturns | tsshd/output.go:383-397 | A first call, of a size and at a budget given, whose debt no number of passes pays off |
| WirePacer.WholeDebtEnds | tsshd/output.go:383-397 | At 10^9 bytes a second every debt of whole bytes ends |
| WirePacer.PassPays | tsshd/output.go:388-395 | A pass sleeps all whole nanoseconds of the deficit or one second, whichever is less, pays exactly for them and leaves the remainder unchanged |
| WirePacer.HalfByteForgiven | tsshd/output.go:346-383 | A call on a new pacer that grants half a byte beyond burst and rate |
| WirePacer.NewPacer | tsshd/output.go:324-333 | A zero budget gives no pacer, any other a pacer for the budget divided by the amplification |
| Rekey.RotatingCrypto.Open | tsshd/rekey.go:120-152 | A packet opens exactly when its key is in the list, and afterwards its key is the first; its bytes are counted exactly when its key was the oldest, and a rekey is asked for exactly when they bring the count to the threshold |
| Rekey.RotatingCrypto.Seal | tsshd/rekey.go:77-99 | Sealing uses the active key and counts every byte; a rekey is asked for exactly when they bring the count to the threshold |
| Rekey.RotatingCrypto.ConsumeBytes | tsshd/rekey.go:181-196 | A rekey is asked for once, when the threshold is passed |
| Rekey.Carry | tsshd/rekey.go:77-233 | For any sequence of sealed packets, arriving packets and installed keys: the count is the volume since the last installation, a rekey is asked for by exactly the calls at which that volume reaches the threshold, and between two such calls a key was installed |
| Rekey.ReachedIff | tsshd/rekey.go:181-196 | The volume is at the threshold if and only if some call brought it there and no key was installed since |
| Rekey.RotatingCrypto.InstallKey | tsshd/rekey.go:198-233 | A new key goes last, becomes active when asked, and ends the rekey in flight |
| Rekey.RotatingCrypto.PromoteKey | tsshd/rekey.go:235-251 | Promotion drops the older keys and seals under the promoted one |
| Rekey.RotatingCrypto.StartRekey | tsshd/rekey.go:253-290 | A rekey starts exactly when open, none is in flight and it is not suppressed |
| RekeyProtocol.DownlinkAlwaysOpen | tsshd/rekey.go:77-354 | For any loss, duplication and reordering both key lists are windows of one sequence of distinct keys, the server's active key is the first of its list, and the client holds it |
| RekeyProtocol.CurrentPacketReopens | tsshd/rekey.go:120-152 | Once the client opens a packet under the server's current key both directions are open (promotion at 235-251) |
| RekeyProtocol.GatedRunsStayOpen | tsshd/rekey.go:253-330 | If rekeys start only while the client holds one key, both directions are open in every reachable state |
| RekeyProtocol.SingleKeyUplink | tsshd/rekey.go:77-152 | With one key in the client's list the uplink is open |
| RekeyProtocol.ClientOpensRule | tsshd/rekey.go:120-152 | A packet arriving at the client keeps the uplink open if and only if it does not open, opens under the oldest key, or under one the server still holds (promotion at 235-251) |
| RekeyProtocol.ServerOpensRule | tsshd/rekey.go:120-152 | A packet arriving at the server keeps the uplink open if and only if its key is not newer than the client's active one (promotion at 235-251) |
| RekeyProtocol.UplinkOpenIff | tsshd/rekey.go:77-354 | The uplink is open in every state of a run if and only if every packet that arrives in it meets the rule for its side |
| RekeyProtocol.OtherStepsKeepUplink | tsshd/rekey.go:77-354 | No step but the opening of a packet can close the uplink |
| RekeyProtocol.UplinkCanClose | tsshd/rekey.go:235-251 | A run in which a late packet takes the client back to a key the server has dropped |
| RekeyProtocol.StepKeeps | tsshd/rekey.go:253-354 | Every step keeps the windows, the packets' indices and the single place of a rekey in flight |
| RoamingRuns.AddressesStayDistinct | tsshd/proxy_server.go:362-514 | Outside a promotion the addresses of all bound clients differ in every reachable state; when every address belongs to a bound client all addresses differ, and the lookup with maps and cache is the scan over all client states (setters at 121-161) |
| RoamingRuns.NoLiveEntryErased | tsshd/proxy_server.go:121-161 | At every instant both maps hold exactly the addresses of the bound clients, and an address in both belongs to the client being promoted (maps at 291-353) |
| RoamingRuns.OwnedIff | tsshd/proxy_server.go:427-507 | Every address belongs to a bound client throughout a run if and only if the reader stores addresses only for clients that are still bound |
| RoamingRuns.LookupIsScanIff | tsshd/proxy_server.go:362-403 | In every reachable state outside a promotion the lookup is the one answer of the scan if and only if no client that is not bound holds the address in the way |
| RoamingRuns.ClosedWhileHandled | tsshd/proxy_server.go:476-507 | A run in which a client is closed between the check and the store, and then shares its address with another |
| RoamingRuns.UndisturbedIsReceived | tsshd/proxy_server.go:405-515 | The reader's separate stores, with nobody in between, make of the table what the loop of the endpoint makes of it, and record and acknowledge exactly what it acknowledges |
| RoamingRuns.StartAdmits | tsshd/proxy_server.go:218-252 | The probe that makes the endpoint finds everything empty; it records and authenticates its sender as any authentication packet does |
| RoamingRuns.ReferencesAreNew | tsshd/proxy_server.go:499-507 | Every address reference handed out is new: none that is held has its number or a later one |
| RoamingRuns.DisturbedAnyTime | tsshd/server.go:157-179 | Timeouts may clear addresses and clients may close between any two steps of the reader |
| RoamingRuns.SerialsNeverDecrease | tsshd/proxy_server.go:457-507 | A client's recorded serial number never decreases (first probe at 235-252) |
| RoamingRuns.EachSerialOneAddress | tsshd/proxy_server.go:457-507 | Of two recorded serial numbers the later is not smaller, and larger when it authenticated an address (first probe at 235-252) |
| RoamingRuns.NilObservationRemovesNewer | tsshd/server.go:157-179 | A timeout that observed nothing removes an address recorded while it waited |
| RoamingProxy.SetKeepsIff | tsshd/proxy_server.go:121-161 | Adding the new map entry before deleting the old keeps the map in step if and only if the map does not hold the new address |
| RoamingProxy.TimeoutRemovesObserved | tsshd/server.go:157-179 | A timeout removes nothing but what it observed if and only if it observed something or there is still nothing |
| RoamingProxy.LookupIsScan | tsshd/proxy_server.go:362-403 | With maps in step and addresses apart, the lookup is the one answer of a scan |
| RoamingProxy.ReceivedKeeps | tsshd/proxy_server.go:405-515 | Any packet from anywhere keeps maps in step and addresses apart |
| RoamingProxy.ReceivedMeans | tsshd/proxy_server.go:405-515 | What a packet does is told by the scan of all client states before it: who is acknowledged, whose serial number and addresses change and how, and that nobody else's do |
| RoamingProxy.DeliveryMeans | tsshd/proxy_server.go:418-448 | After the work on a packet its address is effective for the client it is handed to, or for nobody |
| RoamingProxy.UdpFrontend.GetClient | tsshd/proxy_server.go:362-403 | Returns what a scan over all client states finds and changes only the cache |
| RoamingProxy.UdpFrontend.Receive | tsshd/proxy_server.go:405-515 | With nobody in between: a packet is acknowledged exactly when it is an authentication of an open client from an unused address with a larger serial number, or from the address that client authenticated with no smaller one, and with just that number, which is then recorded; every client's serial number, binding, effective and authenticated address afterwards, as a scan before it decides; and it is handed on exactly when it is long enough and its sender is now an effective address |
| RoamingProxy.UdpFrontend.SetClientAddr | tsshd/proxy_server.go:121-141 | Swap or compare-and-swap of the effective address with its map entries |
| RoamingProxy.UdpFrontend.SetAuthedAddr | tsshd/proxy_server.go:143-161 | Swap or compare-and-swap of the authenticated address with its map entries |
| RoamingProxy.UdpFrontend.Close | tsshd/proxy_server.go:163-184 | A closed client has no address left anywhere |
| RoamingProxy.UdpFrontend.Admit | tsshd/proxy_server.go:476-513 | An authentication packet from an unknown address is acknowledged exactly when its client is not closed and its serial number is larger; then, and only then, that number is recorded and the address authenticated |
| RoamingProxy.UdpFrontend.Renew | tsshd/proxy_server.go:450-473 | A repeated authentication packet is acknowledged exactly when it names the client of its address with no smaller serial number, which is then recorded; one that names another client takes the authenticated address away; anything else changes nothing |
| ProxyHandshake.AcceptedWasRecorded | tsshd/proxy_client.go:371-442 | When no two clients share an address, a path the client accepts has a serial number the server recorded for it and an address the server authenticated for it (serial numbers at 183-187) |
| ProxyHandshake.RecordedIffExclusive | tsshd/proxy_client.go:371-442 | Clients accept only serial numbers recorded for them, in every trace, if and only if no two of them share an address |
| ProxyHandshake.AckDecides | tsshd/proxy_client.go:427-442 | An acknowledgement that arrives is accepted exactly when it has the client's own serial number; a client that is behind takes its number over and goes on waiting |
| ProxyHandshake.AcceptedInOrder | tsshd/proxy_client.go:183-187 | A client accepts each serial number once at most, and later paths have larger ones (acknowledgements at 427-442) |
| ProxyHandshake.ClientSerialsGrow | tsshd/proxy_client.go:183-187 | No event takes a client's serial number back, and every renewed path gets the next one |
| ProxyHandshake.SharedAddressMisleads | tsshd/proxy_client.go:427-442 | Behind any shared address one client takes an acknowledgement for another as its own |
| ProxyHandshake.ClientMatches | tsshd/proxy_server.go:450-455 | The client-identifier mismatch that should not happen does not, when no two clients share an address |
| ProxyHandshake.MatchesIffExclusive | tsshd/proxy_server.go:450-455 | The mismatch happens in no trace if and only if no two clients share an address |
| Attach.Hub.DetachAll | tsshd/attach.go:438-472 | The loop detaches exactly the open sessions of the given server |
| Attach.Hub.Activate | tsshd/server.go:222-267 | After activation no open session has an owner or a filled slot, and nothing was closed or reopened |
| Attach.Hub.HandleDetach | tsshd/bus.go:195-210 | Only the active server over KCP gives up its sessions, and then no open session has an owner or a filled slot; nothing is closed or reopened |
| Attach.Hub.AttachSession | tsshd/attach.go:354-436 | Succeeds exactly for an open unowned session asked for by the active server, and fills all its slots but an ended stderr |
| Attach.Hub.OnReconnected | tsshd/server.go:193-208 | Notifies exactly the open sessions the server owns |
| Attach.Hub.CloseStderr | tsshd/session.go:353-367 | Ending stderr, at once where there is none, closes that slot for good and disturbs no ownership |
| AttachRuns.OwnedByActive | tsshd/attach.go:375-472 | With the mutex free an open session is owned by nobody or by the active server, and has an owner exactly when its I/O stream slot and its checker are filled, by that owner; its stderr slot is too, unless stderr has ended (activation at tsshd/server.go:222-267) |
| AttachRuns.UndisturbedAttach | tsshd/attach.go:375-436 | The stores of an attachment, with nobody in between, do what attaching a session promises, and nothing when it is refused |
| AttachRuns.UndisturbedDetach | tsshd/attach.go:438-472 | In whatever order the sessions are listed, the stores of a detachment take exactly the open sessions of its server |
| AttachRuns.UndisturbedTakeover | tsshd/server.go:222-267 | The stores of an activation and of a graceful leave do what those promise (leave at tsshd/bus.go:195-210) |
| AttachRuns.ClosedForGood | tsshd/attach.go:123-145 | A session, and either of its streams, once closed is never reopened by any run |
| AttachRuns.ClosedOnlyBy | tsshd/attach.go:375-472 | No step but a close closes a session, and none but that or the end of stderr closes a stream (close at tsshd/session.go:353-367) |
| AttachRuns.StartKeepsIff | tsshd/session.go:656-716 | Whoever holds the mutex, after a start every open session is owned by nobody, the active server, or a server whose sessions are being taken and have still to be come to, if and only if the starting server is the active one, or is being replaced and its sessions are not listed yet |
| AttachRuns.KeptIffTimely | tsshd/session.go:656-716 | That holds throughout a run, with slots and checker as the owner's whenever the mutex is free, if and only if every start in it is of that kind |
| AttachRuns.StartFills | tsshd/session.go:656-716 | A session starts open, with all its slots and its checker its starter's but a stderr it does not have, and disturbs no other |
| AttachRuns.LateStartUnsettles | tsshd/session.go:656-716 | A run in which a start by the server just replaced leaves an open session with an inactive owner |
| AttachRuns.HolderGoesOn | tsshd/attach.go:375-472 | Who holds the mutex is never stuck |
| ReplaceableStream.AckedIsSubmitted | tsshd/attach.go:120-220 | For every schedule of swaps the acknowledged pieces concatenate to a prefix of what was submitted, and to all of it when the writer rests (`writeAll` at tsshd/proto.go:284-295) |
| ReplaceableStream.StreamsHoldAcked | tsshd/attach.go:60-179 | A stream holds its acknowledged pieces first and in order; the current one holds nothing else while the writer rests |
| ReplaceableStream.RetriesLeaveReplaced | tsshd/attach.go:169-178 | An attempt that is started again failed on a stream that is not current then or ever after |
| ReplaceableStream.SwapsNeverSurface | tsshd/attach.go:52-179 | A failed write goes back to a stream that broke while it was the one in place: a swap is never an error |
| ReplaceableStream.FailsOnlyInPlace | tsshd/attach.go:166-178 | Over every run a write comes to fail exactly where it is judged not to have gone through on the stream then in place; judged so on any other stream it starts again with the same text |
| ReplaceableStream.AnswersDecide | tsshd/attach.go:60-110 | A piece is acknowledged exactly when the last thing its stream said is that so many bytes went through, and a write fails only when the stream in place last said it broke |
| ReplaceableStream.ClosedForGood | tsshd/attach.go:181-205 | The stream is closed exactly when it was asked to be, never has a stream in place again, and a writer ends only then |
| ReplaceableStream.ReplacedIsShut | tsshd/attach.go:123-145 | Exactly the streams not in place can be shut, and shutting one lets a writer on it go |
| ReplaceableStream.TextIsSubmitted | tsshd/proto.go:284-295 | The text being written is everything submitted, in order |
| ReplaceableStream.SwapsTakeEffect | tsshd/attach.go:118-145 | The stream in place is always the last one swapped in, unless it was swapped out or all was closed since; a swap after the close changes nothing |
| ReplaceableStream.SwappedInIsNew | tsshd/attach.go:131-136 | A stream swapped in is new: not known before, empty and not shut |
| ReplaceableStream.OffersWhenNotShut | tsshd/attach.go:60-69 | A write is handed to a stream exactly when that stream was found not to be shut just before |
| ReplaceableStream.ShutMeansShut | tsshd/attach.go:60-82 | A write is judged shut only on a stream that is shut, with no byte of it gone through |
| ReplaceableStream.WriterGoesOn | tsshd/attach.go:60-179 | A write waits for nothing but a stream to be put in place or the worker of its stream; swaps, the close and the workers may come at any time |
| TimeoutChecker.FlagMeansOpenChannel | tsshd/comm.go:410-448 | Between events the flag is set if and only if an open channel is published |
| TimeoutChecker.FlagFollowsEvents | tsshd/comm.go:421-443 | Between events the flag is set if and only if some timeout event came more than a heartbeat after the last sign of life and no new and recent sign of life has come since; the recorded time is that of the last sign of life, and the notifications are exactly the beginnings and ends of such timeouts |
| TimeoutChecker.PublishesWhenOverdue | tsshd/comm.go:434-443 | A channel is published by exactly the timeout events that are overdue and find the flag clear, and the flag is cleared by exactly the signs of life that are new and recent (signs at 423-433) |
| TimeoutChecker.HandlerComesBack | tsshd/comm.go:410-448 | The handler is through with an event after at most three steps, whatever the waiters do in between |
| TimeoutChecker.ClosedOnce | tsshd/comm.go:410-448 | Every channel made is open or was closed exactly once |
| TimeoutChecker.ReconnectCloses | tsshd/comm.go:411-419 | Only the reconnect that ends a timeout closes a channel, the one it withdrew, and it was open |
| TimeoutChecker.NotesAlternate | tsshd/comm.go:410-443 | Timeout and reconnect notifications strictly alternate |
| TimeoutChecker.NoWaiterStranded | tsshd/comm.go:311-335 | A blocked waiter can go on, or its timeout still lasts and its channel is the published one |
| TimeoutChecker.ReturnsWhenClear | tsshd/comm.go:311-335 | A waiter comes back content exactly when it looks at the flag and finds it clear |
| TimeoutChecker.WaiterComesBack | tsshd/comm.go:311-335 | While no timeout is on, every waiter is back after at most three steps of its own |
| TimeoutChecker.WaiterBlocks | tsshd/comm.go:311-335 | While one is on, every waiter blocks on the published channel after at most four |
| MarkerIndex.Markers.NextIndex | tsshd/session.go:94-108 | The next index is the least 32-bit number above the last with no ';' or carriage return among its bytes, and zero after the largest |
| MarkerIndex.CorrectedIsNext | tsshd/session.go:98-106 | Correcting the highest bad byte gives the least clean number above |
| ProcessTree.FindAllDescendants | tsshd/comm.go:526-553 | Without a visited set the loop ends, lets each process into the queue at most once, and returns exactly the proper descendants |
| ProcessTree.SearchGoesOn | tsshd/comm.go:539-550 | A pass keeps queue and result free of repeats and closed under parents, given that the root is not its own ancestor |
| ProcessTree.CycleNeverEnds | tsshd/comm.go:539-550 | If the root is its own ancestor the queue is never empty |
| ProcessTree.MapChildren | tsshd/comm.go:527-530 | The children map lists every process under its parent, once |
| Wildcard.RegexpMeansGlob | tsshd/sshd_config.go:216-244 | The text of every pattern parses to its items, one for one; its language is the glob whose wildcards skip newlines, and on newline-free values the glob |
| Wildcard.GlobEverywhereIff | tsshd/sshd_config.go:216-244 | The translation keeps the meaning on all values if and only if the pattern has no wildcard |
| Wildcard.TranslationParses | tsshd/sshd_config.go:216-234 | Reading back the translation of a pattern gives its items |
| Wildcard.WildcardToRegexp | tsshd/sshd_config.go:216-234 | The loop builds the anchored translation |
| Wildcard.WildcardMatch | tsshd/sshd_config.go:236-244 | Matching answers what the pattern means on newline-free values |
| Wildcard.MatchList | tsshd/sshd_config.go:375-402 | True exactly when no negated pattern matches and a positive one does, if there is any |
| Wildcard.MatchGroupList | tsshd/sshd_config.go:345-373 | The same over all groups |
| Wildcard.AcceptsMeansGlob | tsshd/sshd_config.go:345-402 | For newline-free values that is the statement in terms of what the patterns mean |
| Wildcard.NegationIsRead | tsshd/sshd_config.go:378-385 | A pattern behind an exclamation mark is read as it stands, without the spaces around it |
| Wildcard.NegatedAlone | tsshd/sshd_config.go:375-402 | A list of one negated pattern accepts exactly the newline-free values the pattern does not mean |

## Left out

- AES-GCM, ECDH, HKDF and the framing of sealed packets: idealised as described above.
- kcp-go, smux, quic-go, TLS, PTY, ConPTY, the terminal emulator and sockets: streams are abstract writers that accept, partly accept or fail.
- The 64-bit overflow of counters and serial numbers: they are natural numbers here.
- Slice aliasing and the capacity bookkeeping of `cacheOutput`: buffers are values.
- The bus message of `clearOutput` and whether a server is attached to carry it: the model records the counts of every report.
- Concurrent `Open` calls on one side of a connection: they are taken as serial, and a rekey send either delivers its message or reports its failure.
- RoamingProxy.UdpFrontend.Receive: one packet with nobody in between; `RoamingRuns` interleaves its stores with timeouts and closes, each setter, each `Close` and the first `initConn` being one step.
- ProxyHandshake.AcceptedWasRecorded: requires that no two clients share an address, without which it is false (`RecordedIffExclusive`).
- ProxyHandshake.ClientMatches: requires the same, without which it is false (`MatchesIffExclusive`).
- Two address values are the same exactly when their printed forms are; the comparison of address forms is not modelled.
- The TCP frontend of the proxy and its handshake races.
- Sole-client (not attachable) mode of the proxy and of activation: it has one client and no maps.
- In the output forwarder, taking the marker clears the discard flag in the same step; a step that tests for the client's timeout and then caches also reads the terminal's height; and the steps of its critical sections are single.
- In `RoamingRuns` the lookup of a packet's sender, the reading of its client state and the test whether it is closed are one step, as are comparing and recording a serial number; every store of an address is a step of its own.
- OutputTurns.AwayTurn: one turn with nobody in between and the same answers given throughout, as in all of `OutputTurns`; the runs interleave its statements.
- AttachRuns.OwnedByActive: creating a session and putting its streams in place is one step, and every start is timely; `KeptIffTimely` says that nothing less will do.
- Attach.Hub.AttachSession: the redraw after attaching and the not-a-terminal refusal are left out; they touch no ownership.
- Several writers on one stream: each stream has one writer, and reads, deadlines and half-closes go through the same loop.
- `replaceableTimeoutChecker` waiting, session resize flags and motd: plumbing over the parts modelled here.
- WirePacer.Pacer.Wait: requires that the debt loop ends, with the exact condition in `LoopEndsIff`; rounding of floating-point numbers is not modelled.
- MarkerRuns.InjectedMarkerCuts: the marker must not stand in what the client reads before the echo, and the client must stay connected from the echo on; a cache would put lines and warnings in between.
- ProcessTree.FindAllDescendants: requires a root that is not its own ancestor, since the loop does not end otherwise (`CycleNeverEnds`).
- X11, agent and port forwarding, environment building, command lines, logging, platform utilities: input and output plumbing.
