# WinHookAudio: verified model of the audio paths and the config files

WinHookAudio moves audio between a Master DAW, up to four apps on each Shared Bridge, Windows devices, Virtual Cables and
Network Streams, one block per Master Clock tick, and keeps its routing in two YAML files. This project models the parts
where threads, processes and clocks meet, and the config text, and proves what they promise, on every input, run or
reachable state.

Code that changes state is a class or a method with the source's fields, loops and branches, proved equal to a
specification on values; protocols between threads or processes are state machines whose steps are the atomic accesses,
audio moving one cell or frame at a time so that torn copies are possible; the theorems are about the specifications, the
runs and the calls.

| files | what they model |
|---|---|
| `BridgeProtocol` | the Shared Bridge: the Worker's tick and up to four client apps over shared memory, cell by cell |
| `BridgePublish`, `Bits` | the outgoing half of a tick in place: fed bitmask, stale channels cleared lowest bit first |
| `BridgePlaces`, `BridgeLayout` | claiming, releasing and taking over a Bridge's four client places; the sizes of its shared region |
| `ClockHandoff` | the Master Clock thread and the Worker: tick count, coalescing auto-reset events, the bounded wait |
| `SpscRing`, `StreamGate` | the lock-free ring of a Network Stream, as a class and as two interleaved threads, and the gate around its reallocation |
| `CableQueue`, `CableRing`, `WaveCopier` | a Virtual Cable direction as a value, the circular buffer that implements it, and the WaveRT copier that feeds it |
| `DriftResampler`, `DriftControl`, `HwInputFifo`, `ChunkEstimator` | clock drift: variable-ratio resampler, deadband PI loop, the hardware input FIFO, the chunk estimators |
| `YamlText`, `YamlInline`, `YamlLines`, `YamlParser` | reading the YAML subset: quoted scalars, flow lists, line splitting, the block parser |
| `YamlRender`, `YamlPrint`, `YamlLayout`, `YamlRoundTrip` | printed documents, and that parsing what is printed gives the document back |
| `ConfigTable`, `ConfigRead`, `ConfigText`, `ConfigWriter`, `ConfigRoundTrip` | the Slot Table, its typed readers, its serializers, and their round trips |
| `Arithmetic`, `Circular`, `Sequences` | quotients and remainders; places in a circular buffer; facts about sequences |

The YAML subset is of YAML 1.2.2: double-quoted scalars (section 7.3.1), flow sequences (section 7.4.1), block collections
(section 8.2).

Three promises turned out not to hold as stated. Each is proved with its exact condition and an input on which it fails:

* A tick is not always routed by exactly one doTick. From a clear Master_Tick event it is, in order, if and only if the
  Worker had read every tick before the clock counted the next one (`ClockHandoff.OnceExactlyWhen`). That holds in every run
  without a timed-out wait (`ClockHandoff.NoTimeOutIsInTime`); a timed-out wait can break it
  (`ClockHandoff.TimedOutWaitRoutesTwice`). From an event left set by an earlier start an old tick is routed again
  (`ClockHandoff.LeftoverEventRoutesOldTick`); whatever the event held, the condition is the same and one wake per tick
  (`ClockHandoff.OnceWhateverTheEvent`).
* A whole table does not always come back from an Everything file: `ConfigRoundTrip.RestoredExactly` gives the exact
  condition (8 Virtual Cables, no mode on an unlisted device, not older than the table read into);
  `ConfigRoundTrip.CablesNotRestored` gives a valid table with 64 Virtual Cables that comes back with 8.
* One direction's device list comes back unchanged exactly if no device past the last listed one has a mode
  (`ConfigRoundTrip.KeptExactly`); `ConfigRoundTrip.ModeNotRestored` gives a valid table whose unlisted shared device comes
  back exclusive.

## Model

| member | source | states |
|---|---|---|
| `BridgeProtocol.DelayFitsRing` | common/WHABridgeShared.h:46-53 | for all 32-bit buffers the delay is 2..5, less than the ring; without wrap-around it is the least number of blocks that covers one block plus the Bridge buffer |
| `BridgeProtocol.StepKeepsInv` | asio-master/MasterHolder.cpp:350-404 | every atomic step of the Worker and of every app, in any state, keeps the protocol invariant (ring contents, counts, tick in progress) |
| `BridgeProtocol.NeverAhead` | asio-bridge/WinHookBridgeASIO.cpp:362-376 | in every reachable state no running app's next block is past the Worker's count, and what it produced lies between its join and that count |
| `BridgeProtocol.ProducedOrSkipped` | asio-bridge/WinHookBridgeASIO.cpp:363-373 | blocks since the join = blocks produced + blocks counted as skipped |
| `BridgeProtocol.InputIsPublished` | asio-bridge/WinHookBridgeASIO.cpp:392-397 | a copy of block m that ended with at most m + 5 blocks published is exactly block m as the Worker published it, whatever the interleaving of the two copies |
| `BridgeProtocol.WakeRestoresReach` | asio-bridge/WinHookBridgeASIO.cpp:362-368 | every batch starts at most five blocks behind, never skips the newest block, and skips only when a whole ring behind, counting each skipped block |
| `BridgeProtocol.MixedSlotIsWhole` | asio-master/MasterHolder.cpp:380-397 | while the Worker mixes a place, the slot it reads is not the one the app writes, and holds the latest block produced that is at most t - delay and congruent to it mod 6, or silence if there is none |
| `BridgeProtocol.DelayedExactly` | asio-master/MasterHolder.cpp:380-397 | an app that skipped nothing and is found by the tick reaches Master IN delayed by exactly `delay` blocks, with silence before its join: no gap, no repeat |
| `BridgeProtocol.MixIsSum` | asio-master/MasterHolder.cpp:390-397 | each tick's mix is, cell by cell, the sum over the places it found a block from |
| `BridgeProtocol.PaintAt` | asio-bridge/WinHookBridgeASIO.cpp:400-402 | what a produced block holds in a channel is what the app's last binding of it wrote |
| `BridgePublish.BridgeOut.Publish` | asio-master/MasterHolder.cpp:358-379 | one tick: every channel of the ring slot holds the sum of the OUT slots that pick it, and is silent over all 1024 frames if none does; other ring slots are untouched |
| `BridgePublish.BridgeOut.Feed` | asio-master/MasterHolder.cpp:361-374 | the mask returned names exactly the channels some slot picks, those hold the sums, the others what they held |
| `BridgePublish.BridgeOut.ClearStale` | asio-master/MasterHolder.cpp:375-378 | the lowest-set-bit loop clears exactly the channels of the mask |
| `BridgePublish.Replay` | asio-master/MasterHolder.cpp:350-379 | from a zeroed region, after any history of ticks and table edits, the ring holds the blocks of the last six ticks |
| `BridgePublish.SumOfNone` | asio-master/MasterHolder.cpp:364-374 | a channel no slot picks has the sum zero |
| `BridgePlaces.ClaimClientPlace` | asio-bridge/WinHookBridgeASIO.cpp:87-104 | alone: takes the lowest free place, else the lowest one of another process that has exited, fails exactly if there is neither, and changes nothing else |
| `BridgePlaces.StepKeepsInv` | asio-bridge/WinHookBridgeASIO.cpp:87-113 | every probe, compare-exchange, release, process start and exit keeps the ownership invariant |
| `BridgePlaces.OneHolder` | asio-bridge/WinHookBridgeASIO.cpp:87-113 | over all interleavings of any number of driver instances, two instances of running processes never hold one place, and owner[] names the holder |
| `BridgePlaces.NeverLosesPlace` | asio-bridge/WinHookBridgeASIO.cpp:92-97 | a running instance keeps its place through any run until it gives it back or its process ends |
| `ClockHandoff.RoutedMeansRouted` | asio-master/MasterHolder.h:33-45 | whenever waitWorker(T) is about to return true, a doTick that began after tick T had stored its OUT blocks has finished (or no tick happened since the Worker started) |
| `ClockHandoff.EveryTickAccounted` | asio-master/MasterHolder.cpp:98-112 | each tick the Worker has learned of was a wake of its own or was handed to skip(), once |
| `ClockHandoff.ExactlyOnce` | asio-master/WinHookMasterASIO.cpp:591-594 | with a clear event at the start and no timed-out wait: each tick is routed by exactly one doTick, in order, none skipped, and the clock's shared-memory copies never overlap a doTick |
| `ClockHandoff.TimedOutWaitRoutesTwice` | asio-master/MasterHolder.cpp:96-113 | a run with a timed-out wait in which one tick is routed twice and the one before it never by itself |
| `ClockHandoff.OnceExactlyWhen` | asio-master/MasterHolder.cpp:96-113 | from a clear event, in every run and whenever no tick is on its way to the Worker: every tick has had exactly one doTick, in order, if and only if the Worker had read each tick before the clock counted the next |
| `ClockHandoff.OnceWhateverTheEvent` | asio-master/MasterHolder.cpp:96-113 | the same for any event at the start: if and only if in addition the Worker woke as often as the clock ticked |
| `ClockHandoff.NoTimeOutIsInTime` | asio-master/WinHookMasterASIO.cpp:591-594 | in a run in which every wait lasted until its tick was routed, each tick is counted after the one before was read |
| `ClockHandoff.LeftoverEventRoutesOldTick` | asio-master/MasterHolder.cpp:96-113 | from an event left set, a run in which no tick is counted and a doTick routes the count of before the start |
| `SpscRing.RefinesFifo` | common/network/WHASpscRing.h:41-81 | in every interleaving, frame by frame and with each side holding a stale copy of the other's index: frames come out once each, in order, as accepted; unread frames are never overwritten; also across the 64-bit wrap and the mask |
| `SpscRing.CallsFit` | common/network/WHASpscRing.h:41-67 | a call accepts or takes exactly what fits: the wrapped difference cut to 32 bits is the true fill |
| `SpscRing.PlaceIsRemainder` | common/network/WHASpscRing.h:70-81 | mask and two-part copy put frame number j of the stream at j mod capacity |
| `SpscRing.StepKeepsInv` | common/network/WHASpscRing.h:41-81 | every atomic step of either thread keeps the invariant |
| `SpscRing.Ring.Allocate` | common/network/WHASpscRing.h:18-27 | the least power of two that holds the frames, empty; false and nothing changed for none |
| `SpscRing.Ring.Write` | common/network/WHASpscRing.h:41-48 | appends to the unread frames exactly the prefix that fits, and says how much |
| `SpscRing.Ring.Read` | common/network/WHASpscRing.h:51-58 | removes and returns exactly the oldest frames, as many as there are up to the request |
| `SpscRing.Ring.Discard` | common/network/WHASpscRing.h:61-67 | removes exactly the oldest frames without copying |
| `SpscRing.Ring.CopyIn` | common/network/WHASpscRing.h:70-75 | the two-part copy appends the frames to the unread ones and disturbs none |
| `SpscRing.Ring.CopyOut` | common/network/WHASpscRing.h:76-81 | the two-part copy returns the buffer's frames from its start place on, past the end from the beginning |
| `StreamGate.GateExcludes` | common/network/WHANetworkEngine.cpp:65-83 | in every run, between close() returning and `active` being set the Worker is outside, and inside it always has the current allocation |
| `StreamGate.CloseReturns` | common/network/WHANetworkEngine.cpp:79-82 | while close() spins every Worker move but a use of the stream brings the Worker nearer the outside, and once outside the next look ends the spin |
| `CableQueue.WriteSplits` | common/virtual/WHACableRing.h:38-58 | write(a ++ b) is write(a) then write(b), drop count included |
| `CableQueue.WriteAllIsOneWrite` | common/virtual/WHACableRing.h:38-58 | any split of the frames into writes gives the same queue |
| `CableQueue.Conservation` | common/virtual/WHACableRing.h:21-119 | after any history from a clear: frames written = taken + dropped + queued, and the queue is the newest part of the stream, within capacity |
| `CableQueue.ReadsTheStream` | common/virtual/WHACableRing.h:69-119 | after any history, what a read delivers is the slice of the written stream right after everything taken and dropped before, then silence |
| `CableQueue.LatencyGrowsAtUnderrun` | common/virtual/WHACableRing.h:113-118 | the latency changes only in a read that underruns, by `grow`, within maxPrime; that read waits for priming again |
| `CableQueue.LatencyBounded` | common/virtual/WHACableRing.h:69-119 | over any history with one prime and limit, prime + extra stays within maxPrime |
| `CableQueue.TrimNeedsLongExcess` | common/virtual/WHACableRing.h:92-103 | a primed queue is trimmed only by the last of a row of primed over-full reads that together asked for at least 4096 frames |
| `CableQueue.MarginHolds` | driver/WHADriver.h:70-85 | the margin theorem: reads of n against a fixed prime of at least n + L, a writer never more than L frames behind between two reads: once primed, no read underruns, whatever chunks, overflows and trims |
| `CableQueue.PrimingStartsMargin` | common/virtual/WHACableRing.h:71-88 | the read that primes leaves the queue as the margin theorem needs it |
| `CableRing.Ring.constructor` | common/virtual/WHACableRing.h:14-27 | an empty ring is the empty queue |
| `CableRing.Ring.Clear` | common/virtual/WHACableRing.h:21-27 | clearing the ring clears the queue and keeps the counters |
| `CableRing.Ring.ResetExtra` | common/virtual/WHACableRing.h:34 | only the adaptive latency goes |
| `CableRing.Ring.Write` | common/virtual/WHACableRing.h:38-58 | in place, the circular buffer does what the drop-oldest queue says |
| `CableRing.Ring.CopyBehind` | common/virtual/WHACableRing.h:51-56 | the copy loop puts the frames behind those queued, across the end of the buffer, and disturbs none |
| `CableRing.Ring.Read` | common/virtual/WHACableRing.h:69-119 | state and delivered frames are those of the queue's read: priming, start cut, trim, underrun, latency growth |
| `CableRing.Ring.Take` | common/virtual/WHACableRing.h:104-112 | the copy loop takes the oldest frames |
| `WaveCopier.ElapsedFrames` | driver/WHAMiniports.cpp:607-612 | despite the split division: floor(ticks * rate / frequency), zero before the start |
| `WaveCopier.SplitAvoidsOverflow` | driver/WHAMiniports.cpp:609-611 | no intermediate value of the split division overflows 64 bits while the result does not and a second's ticks times the rate fits |
| `WaveCopier.ElapsedGrows` | driver/WHAMiniports.cpp:607-612 | the position never goes back during a run |
| `WaveCopier.HandedOnceInOrder` | driver/WHAMiniports.cpp:614-656 | over any updates of a run, stream positions are handed over at most once each, in order, and one is missing exactly if it was more than a buffer old at the very update that passed it |
| `WaveCopier.NothingSkipped` | driver/WHAMiniports.cpp:614-656 | updates at least once a buffer hand over every position |
| `WaveCopier.WaveStream.Update` | driver/WHAMiniports.cpp:614-656 | one update is one write to the ring of the frames at the positions passed since the last, each from offset position mod bufferFrames |
| `WaveCopier.WaveStream.UpdateAll` | driver/WHAMiniports.cpp:614-656 | any sequence of updates of a run, the engine's buffer changing in between, is together one write of the frames handed over, and ends at the furthest target |
| `WaveCopier.FramesOfPositions` | driver/WHAMiniports.cpp:634-651 | those frames are one per position handed over, in order, each the one that stood at position mod bufferFrames at the update that passed it |
| `WaveCopier.WaveStream.CopyPending` | driver/WHAMiniports.cpp:629-655 | the chunk loop terminates and its writes together are that one write |
| `WaveCopier.WaveStream.CopyThroughScratch` | driver/WHAMiniports.cpp:640-651 | 256-frame pieces through the scratch buffer are one write of the converted frames |
| `WaveCopier.WaveStream.SetState` | driver/WHAMiniports.cpp:670-694 | a run starts at the position reached; leaving RUN hands over up to that moment first; STOP goes back to position 0 |
| `DriftResampler.SplitDoesNotMatter` | common/network/WHADriftResampler.h:30-70 | a call with a ++ b gives the output and the state of a call with a, then one with b |
| `DriftResampler.CallsAreOneCall` | common/network/WHADriftResampler.h:30-70 | the output does not depend on how the input is split into calls |
| `DriftResampler.OutputOfStream` | common/network/WHADriftResampler.h:22-70 | N frames in any split at constant ratio r give exactly ceiling((N + 1) r) frames, the filter's values at positions 7, 7 + 1/r, ... of the stream |
| `DriftResampler.CountUnique` | common/network/WHADriftResampler.h:36-63 | the number of outputs is the only one whose positions fit before the input ends |
| `DriftResampler.DueFrames` | common/network/WHADriftResampler.h:36-63 | a call puts out at least k frames if and only if its k-th read position lies more than 8 frames before the end of the input |
| `DriftResampler.UnityIsDelay` | common/network/WHADriftResampler.h:22-63 | at ratio 1, output k is input k - 9 itself, silence before |
| `DriftResampler.Filter.Process` | common/network/WHADriftResampler.h:30-70 | the history, position and fraction kept by insert and erase compute those outputs; every tap lies in the history for ratios above 1/16 |
| `DriftResampler.Filter.Emit` | common/network/WHADriftResampler.h:37-63 | the loop emits one output per due position and stops exactly when none is left |
| `DriftControl.NeverEngages` | common/WHADriftControl.h:59-68 | while every fill lies within the deadband, both smoothing stages stay within it, drift never engages and the ratio stays 1 |
| `DriftControl.EngagingIsEarned` | common/WHADriftControl.h:64-68 | engaging takes an unbroken row of smoothed errors outside the deadband that lasts at least engageSec |
| `DriftControl.OutsideIsUnbroken` | common/WHADriftControl.h:64-67 | outsideSec is the length of the current unbroken row outside |
| `DriftControl.StaysEngaged` | common/WHADriftControl.h:64-68 | once engaged, engaged after every further sequence of observations |
| `DriftControl.RatioBounded` | common/WHADriftControl.h:69-75 | over any observations the ratio stays within 1 +- maxPpm |
| `DriftControl.RetargetStaysQuiet` | common/WHADriftControl.h:44-55 | a new target or new gains start no correction, and new gains keep the integral's share of it |
| `DriftControl.Controller.Update` | common/WHADriftControl.h:59-76 | the fields after an update are the specified step of the loop |
| `HwInputFifo.Fifo.constructor` | asio-master/HwInputFifo.h:34-55 | reset: first target, limit, empty queue, no correction |
| `HwInputFifo.Fifo.Push` | asio-master/HwInputFifo.h:59-75 | the packet's resampled frames go behind all made before, the queue keeps the newest that fit, and no correction starts |
| `HwInputFifo.Fifo.StoreAll` | asio-master/HwInputFifo.h:64-74 | the loop keeps made = taken + dropped + queued and never exceeds the capacity |
| `HwInputFifo.Fifo.Read` | asio-master/HwInputFifo.h:79-122 | delivers exactly when primed (the priming read always delivers) with a block left after the cuts; the frames are the next ones made, and input frames unchanged while no correction runs; only a starved read raises the target, within its limit |
| `HwInputFifo.Fifo.Cut` | asio-master/HwInputFifo.h:82-93 | the start cut leaves the backlog at the target with at least a block, the resync cut leaves target plus block |
| `HwInputFifo.Fifo.Starve` | asio-master/HwInputFifo.h:97-108 | the target grows by max(prime / 4, period) up to its limit, priming begins again, quiet stays quiet |
| `HwInputFifo.Fifo.Skip` | asio-master/HwInputFifo.h:127-131 | a primed queue drops exactly the missed frames it has |
| `HwInputFifo.Fifo.PushAll` | asio-master/HwInputFifo.h:59-75 | any packets in a row are one stream: the frames made are those of their joined input, and the queue keeps the newest that fit |
| `HwInputFifo.Fifo.Prime` | asio-master/HwInputFifo.h:39-41 | priming stays reachable: from any state, however grown the target, packets that together make the last of prime + need frames due leave an unprimed queue that starts at the next read |
| `HwInputFifo.Fifo.GrowthLimit` | asio-master/HwInputFifo.h:100-106 | the target grew at most ceiling((maxPrime - first) / period) times |
| `HwInputFifo.GrowthKeepsBound` | asio-master/HwInputFifo.h:100-106 | every growth but the last adds at least a period |
| `HwInputFifo.StraightStays` | asio-master/HwInputFifo.h:59-63 | at ratio 1 everything resampled so far is the input stream itself |
| `HwInputFifo.SteadyPackets` | asio-master/HwInputFifo.h:160-175 | packets that come when predicted move neither the frame period nor the backlog |
| `ChunkEstimator.Estimator.LearnChunk` | asio-master/HwClockPacer.h:164-173 | the learned maximum is the largest excess since the previous window began, and at least every excess of the last second |
| `ChunkEstimator.LargestIsMaximum` | asio-master/HwClockPacer.h:170-171 | that largest excess is attained, and none is larger |
| `ChunkEstimator.LargestSinceWindow` | asio-master/HwOutputFifo.h:102-111 | the two window maxima together agree with the full history since the previous window |
| `ChunkEstimator.RoundChunkIs` | asio-master/HwClockPacer.h:175 | the rounded chunk is the least number of whole blocks that holds it, none below half a block |
| `ChunkEstimator.RoundChunkGrows` | asio-master/HwClockPacer.h:175 | rounding keeps order |
| `YamlText.YamlQuote` | common/WHAYaml.h:37-53 | the loop builds the quoted form |
| `YamlText.ReadQuoted` | common/WHAYaml.h:82-127 | the loop reads what the scan from its opening quote says, faults included |
| `YamlText.ReadPiece` | common/WHAYaml.h:85-125 | one round: a character, an escape, the end, or a fault |
| `YamlText.ReadUndoesQuote` | common/WHAYaml.h:37-127 | for every string and any text before and after it, reading the quoted form gives the string back and stops right behind it |
| `YamlInline.ReadFlow` | common/WHAYaml.h:159-200 | the flow list loop reads what the recursive reading says |
| `YamlLines.FindCut` | common/WHAYaml.h:323-339 | the quote-aware scan finds the comment |
| `YamlLines.SplitLines` | common/WHAYaml.h:312-355 | the loops give the meaningful lines of the text, or the first fault |
| `YamlRender.CutPassesQuoted` | common/WHAYaml.h:323-339 | a quoted scalar where one may stand is passed over whole, whatever is in it: comment cutting removes no part of it |
| `YamlRender.LineMeans` | common/WHAYaml.h:322-351 | a printed line splits into its own indent and text, its comment gone |
| `YamlRender.SplitOfRender` | common/WHAYaml.h:312-355 | splitting a printed text gives exactly the printed lines |
| `YamlParser.ParseMap` | common/WHAYaml.h:250-273 | the map parser on the lines still to come: terminates, and takes at least its first line |
| `YamlParser.ParseItem` | common/WHAYaml.h:275-305 | a list item takes at least one line although its line is rewritten and parsed again: why the parser terminates on every text |
| `YamlParser.Parser.Fields` | common/WHAYaml.h:250-273 | the loop over the line array gives what the map parser says, and the lines after it |
| `YamlParser.Parser.ListItem` | common/WHAYaml.h:279-302 | rewriting the line in place and parsing a map from it is what the item parser says |
| `YamlParser.ParseText` | common/WHAYaml.h:360-365 | parser and line array together compute ParseYaml, faults included |
| `YamlRoundTrip.ParseOfPrint` | common/WHAYaml.h:218-365 | for every well-formed document, with any strings and any comments, parsing its printed text gives the document |
| `YamlRoundTrip.ReadsFlow` | common/WHAYaml.h:159-200 | a printed flow list is read back |
| `YamlLayout.DocTextIs` | common/WHAConfigYaml.h:86-181 | text written line by line (key, value, comment, nested block, dashed items) is the text of the printed document |
| `ConfigTable.StrtollUndoesText` | common/WHAConfigYaml.h:213-222 | every integer printed is read back, whole text used |
| `ConfigTable.StrtofUndoesText` | common/WHAConfigYaml.h:248-257 | every quality of 0.1..1 in millionths printed with %.6g is read back exactly |
| `ConfigTable.NumberUndoesWord` | common/WHAConfigYaml.h:26-82 | every word of the four tables is read back as its number |
| `ConfigWriter.SerializeRoutes` | common/WHAConfigYaml.h:86-111 | built line by line, the text is that of the routes document |
| `ConfigWriter.SerializeSettings` | common/WHAConfigYaml.h:115-181 | built line by line, the text is that of the settings document |
| `ConfigWriter.SerializeEverything` | common/WHAConfigYaml.h:452 | routes, then settings without their header: one document |
| `ConfigWriter.CountListed` | common/WHAConfigYaml.h:142-144 | the count is one past the last listed device, at least one |
| `ConfigRoundTrip.RoutesRoundTrip` | common/WHAConfigYaml.h:436-439 | reading routes.yml restores version and slots of any valid table, for arbitrary name bytes, whatever table it is read into |
| `ConfigRoundTrip.SettingsRoundTrip` | common/WHAConfigYaml.h:440-443 | reading settings.yml restores every written field of any valid table |
| `ConfigRoundTrip.EverythingRoundTrip` | common/WHAConfigYaml.h:452-496 | reading an Everything file restores routes and settings, and the result validates |
| `ConfigRoundTrip.SingleFileRoundTrip` | common/WHAConfigYaml.h:457-496 | a single file is recognised by its content, and taken exactly if the table validates with it |
| `ConfigRoundTrip.RestoredExactly` | common/WHAConfigYaml.h:115-181 | the whole table comes back if and only if it has 8 Virtual Cables, no mode on an unlisted device, and is not older than the table read into |
| `ConfigRoundTrip.KeptExactly` | common/WHAConfigYaml.h:141-158 | a direction's devices come back if and only if those past the last listed one are exclusive |
| `ConfigRoundTrip.CablesNotRestored` | common/WHAConfigYaml.h:159-165 | a concrete valid table with 64 Virtual Cables, whose Everything file reads back as a table with 8 |
| `ConfigRoundTrip.ModeNotRestored` | common/WHAConfigYaml.h:141-158 | a concrete valid table with a shared mode on an unlisted device, whose Everything file reads back with that device exclusive |
| `ConfigRoundTrip.PartsAreFiles` | common/WHAConfigYaml.h:478-490 | splitting an Everything file's keys gives exactly the two single files |
| `ConfigRoundTrip.NotOldFormat` | common/WHAConfigYaml.h:458-464 | no written file is taken for the old JSON format |

## Left out

- BridgeProtocol.DelayedExactly: a client's stop() and start() inside one Worker tick clear the ring under the reader, which the `clean` marks exclude; a Bridge region is assumed zeroed when the Worker starts, as its fed mask starts at 0.
- BridgeProtocol.InputIsPublished: the inner batch loop does not look at the ring distance again, so the distance when the copy ends is a hypothesis.
- BridgeProtocol.MixIsSum: the mix before its tanh, which acts on each sample alone.
- BridgePublish.BridgeOut.Publish: Bridge audio is over real numbers; how floating-point addition rounds is not modelled, nor the shared-memory layout.
- BridgePlaces.OneHolder: process IDs are not used again, as the source assumes; a crash counts as an exit.
- ClockHandoff.ExactlyOnce: the case of a clear event and no timed-out wait, with what holds at every moment; the exact condition is ClockHandoff.OnceExactlyWhen. The HW inputs and outputs that skip() moves on are counters here; how long a wait lasts is not modelled, only that it may give up.
- SpscRing.Ring.Allocate: at most 2^31 frames; beyond that the source's 32-bit doubling loop does not end.
- SpscRing.RefinesFifo: one frame is one value; interleaved channels, and memory orders weaker than the acquire and release the source uses, are not modelled.
- StreamGate.GateExcludes: opening sockets, encoders and decoders inside the gate is I/O; ApplyConfig and processTick appear only as the gate and ring operations they make.
- CableRing.Ring.Write: the cable's widening of a frame to 8 channels, a null source and the reader's own channel count act on one frame alone.
- CableRing.Ring.Read: 32-bit wrap-around of the cable's over-full counter and of prime + extra for arguments near 2^32; the counters drops and underruns do wrap.
- CableQueue.MarginHolds: reads of one size; the driver's own prime of two Worker blocks is the case n = L = one block.
- WaveCopier.WaveStream.Update: only the playback side; the recording side calls the cable's read instead. Sample conversion and volume are the parameter `convert`. 64-bit overflow of the position itself is not modelled.
- WaveCopier.WaveStream.SetState: the timer, the spin lock and the rates the cable remembers.
- DriftResampler.Filter.Process: filter tap values, their table and interpolation are the parameter `filter`; time, ratios and fractions are real numbers; ratios of 1/16 and below are excluded, as the source needs the step to stay under the filter length.
- DriftControl.NeverEngages: over real numbers; convergence of the PI loop is not claimed.
- HwInputFifo.Fifo.Push: the frames of a packet are values; the planar output and the channel counts of read() are not modelled.
- ChunkEstimator.Estimator.LearnChunk: the chunk before rounding; the pacer's timeline (`setpoint`, `untilTick`, `observe`) and HwPositionTracker's `observe` are not modelled.
- HwOutputFifo's `push`, `plan` and `pop`: device positions read back from Windows decide them; they repeat the input FIFO's queue with fewer obligations.
- YamlParser.ParseText: error messages and line numbers; a fault is a kind.
- YamlText.ReadUndoesQuote: a character is a byte; the reader's \u escapes give UTF-8 bytes, which the writer never needs.
- ConfigTable.StrtofUndoesText: quality is in millionths; exponents, hex and infinities, which strtof also reads, are refused here, and the float nearest to the decimal is not modelled.
- ConfigTable.StrtollUndoesText: the 64-bit saturation of strtoll, beyond every range checked after it.
- ConfigWriter.SerializeRoutes: the wording of the comments is a parameter; only that each is a comment matters.
- ConfigRoundTrip.RoutesRoundTrip: char arrays are zero-padded texts, as TruncateCopy leaves them.
- ConfigRoundTrip.EverythingRoundTrip: what a failed read leaves half written in the table; the readers are functions on values.
- ConfigRead.DeserializeConfigText: the old slots.json format, whose round trip repeats this one with less structure.
- The receive side's trim when the jitter target is smaller than a block, and whether DawVisibleChanged sees every change for automatic names.
- Windows, COM, WASAPI, PortCls and registry calls, sockets, Vorbis and r8brain, the Control Panel, the installer and the tools: I/O, foreign code and user interface.
- The jitter buffer, the plain ring buffer, the Master claim and the panel's list edits: easy members.
