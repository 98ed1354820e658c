# s3c2440adc: a Dafny model

s3c2440adc samples the ADC of an S3C2440A board and shows it on an oscilloscope screen. It has
four parts: a Linux driver with one client slot per channel, a small library around the device
files, an edge-triggered TCP server that answers requests with samples or the time, and a Qt
client whose channels ask for samples and whose charts draw them.

The system has little algorithm and much state, so most of what is proved here is about whole
runs: any steps, of any number of clients, in any order.

| file | what it models |
|---|---|
| `DataGrams.dfy` | the record both ends exchange, its 20-byte layout, and what a client makes of one |
| `Framing.dfy` | the byte stream that carries it, with partial writes and short reads, and the two ways of reading it |
| `AdcNetwork.dfy` | the server and its clients as one transition system: descriptors, epoll set, pending edges, event batch, accept loop, queues |
| `AdcInvariants.dfy` | what every step of that system keeps |
| `AdcTheorems.dfy` | batch safety, interest set, FIFO, conservation, provenance |
| `AdcWakeups.dfy` | which steps leave a request, a close or a waiting connection with no edge to announce it, and that it stays so |
| `AdcProgress.dfy` | that the server, left alone, comes to rest with nothing unread or waiting |
| `AdcServerLoop.dfy` | the event loop in the program's own form, proved to be a run of the system |
| `SampleWindow.dfy` | the newest-first sample list with its size cap and its prune by age |
| `FyyMon.dfy` | a chart (drawing, pruning, timer) and the four-chart monitor with its timer fan-out |
| `FyyMonBackground.dfy` | the grid |
| `FyyCh.dfy` | one client channel: settings dialog, socket, reconnect flag, reading of replies |
| `Fl2440AdcFile.dfy` | open, read and release of the driver's files |
| `Fl2440AdcModule.dfy` | load, probe, remove and unload of the driver |
| `PidFile.dfy` | the pid file as a lock |

Pure state machines carry the theorems about runs. Where the program changes objects step by
step there is also a class whose methods are proved equal to the steps of the state machine.
Fields called history are never read by a branch; they record the past so that a property of a
run can be stated.

## What the code does and does not guarantee

Several properties one would expect do not hold in general. For each, the model keeps the code
as it is, exhibits an input or a run that breaks the property, and proves exactly when it holds.

* The server makes one read per edge. A client that sends a second request before the server has
  looked waits until it does something more (`PipeliningStrands`, `UnheededForever`). A connection
  behind a failed accept waits until another client connects (`FailedAcceptStrands`,
  `BacklogForever`). A connection closed behind a request is, while the listening socket
  works, kept open unheeded exactly until the reset that the reply provokes arrives
  (`CloseBehindRequestStrands`, `LeftOpenUntilReset`), and for ever if the reply could not be written (`CloseBehindFailedWrite`, `LeftOpenForever`). `UnheededExactly` and
  `BacklogExactly` say which steps leave such a thing behind. Stop-and-wait clients are safe
  (`NoMissedWakeup`, `NoMissedClose`), and are served within a bounded number of steps (`Progress`,
  `RestIsReached`).
* The client makes one read per signal, so replies that share one lag behind (`TwoShareSignal`,
  `ReaderLag`, `KeepsUpExactly`).
* Framing is lost by one short read. The client throws short reads away
  (`ShortReadLosesFraming`): its records stay in place exactly if no whole read follows one
  (`InPlaceExactly`). The server pads them with zeros and handles them: a request for channel 2 cut
  short is served from channel 0 (`ShortReadSamplesZero`); its records stay in place exactly if it
  reads nothing after a short read (`HandledInPlaceExactly`), and the short one goes unnoticed
  exactly if the bytes it lacks were zero (`HandledInOrder`, `ShortServerRead`).
* The driver's `open` counts a user only when it registers the client. With three overlapping
  opens `release` is handed NULL (`OverlapReleasesNull`, `ClientHeldExactly`). A second file on
  channel 1, 2 or 3 asks for channel 0 (`ReadsOwnChannelExactly`), and its read is handed NULL when
  channel 0 holds no client (`SecondOpenAsksForZero`, `ReadHandedNullExactly`). With one file at a
  time a client is left registered after every odd round, so every second file asks for channel 0
  (`EveryOtherRound`, `EveryOtherFileAsksForZero`, `EveryOtherFileReadsNull`).
* `adcserver -x` parses a buffer it does not terminate. It unlinks the pid file of a live server
  exactly if stray digits behind the pid turn it into the pid of no process
  (`ExitBreaksLockExactly`, `StaleDigitBreaksExclusion`). A short write of the pid is taken for
  success and breaks the lock too (`ShortWriteExactly`, `ShortWriteBreaksExclusion`). Otherwise the
  file is a lock (`MutualExclusion`).
* Unticking "Connection and sample" while a request is still being written leaves the reconnect
  flag down without a connection, and nothing else does (`FlagLeftExactly`); ticking it again in
  that situation is lost (`LostReconnect`, `AllowedMeansLive`).
* Freezing or hiding a chart does not last: its source coming up starts it again
  (`FrozenTicks`, `HiddenShows`, `TicksRegardlessExactly`, `SeenThoughHiddenExactly`).
* Evicting by count is harmless for samples at distinct milliseconds (`CapHarmless`,
  `WindowRefinementDistinct`); a burst in one millisecond can lose a sample still on the axis
  (`BurstLosesSample`, `CapHarmfulExactly`, `WindowRefinementExact`).

Comments and code disagree in two places touched here, and the model follows the code: the
driver's comment at drivers/fl2440adcdri.c:82 allows several processes to hold the device open,
but its count does not count them; and the comment at client/fyyoscillometer/src/fyymon.h:70 calls
msecondSpace the space of one second, but it is that of one millisecond.

## Model

| member | source | states |
|---|---|---|
| DataGrams.DecodeEncode | server/src/dataitem.h:38-44 | a record written by one end is read back unchanged by the other, for all field values |
| DataGrams.EncodeDecode | server/src/dataitem.h:38-44 | bytes with clean padding are the encoding of the record they decode to |
| DataGrams.RecordLayout | server/src/dataitem.h:38-44 | the offset of every field in the twenty bytes, the time in two's complement, and zeros between |
| DataGrams.LittleEndian | server/src/dataitem.h:38-44 | each four-byte field has its lowest byte first |
| DataGrams.Announced | client/fyyoscillometer/src/fyynet.cc:137-165 | which signal a reply calls for, each in both directions, by its valid flag, channel and type number, with the reply's value and time stamp |
| DataGrams.ShortServerRead | server/src/adcnetwork.c:213-214 | a short server read into the zeroed record yields the record sent exactly if all missing bytes were zero |
| Framing.InPlaceExactly | client/fyyoscillometer/src/fyynet.cc:122-135 | over any run of writes, deliveries and reads, partial ones included, the k-th record decoded is cut from the k-th place of the stream, for all k, exactly if no whole read follows a short read that found bytes |
| Framing.FramedInOrder | client/fyyoscillometer/src/fyynet.cc:122-135 | with writes accepted whole or not at all and no whole read after a short one, however bytes are chunked and coalesced, the k-th record decoded is the k-th written |
| Framing.ShortReadLosesFraming | client/fyyoscillometer/src/fyynet.cc:127-133 | a run with whole writes in which one short read makes the first record decoded differ from the first written |
| Framing.AlignedThroughout | client/fyyoscillometer/src/fyynet.cc:122-135 | both stream positions stay multiples of the record size after every step exactly if no read or write is partial |
| Framing.HandledInPlaceExactly | server/src/adcnetwork.c:213-220 | over any run, every record the server handles starts at its own place in the stream exactly if it reads nothing after a short read |
| Framing.HandledInOrder | server/src/adcnetwork.c:213-222 | with whole writes and no read after a short one, the k-th record handled is cut from the k-th written, short only if it is the last, and equals it exactly if all it lacks is zero |
| Framing.ShortReadSamplesZero | server/src/adcnetwork.c:213-222 | a run in which a request for channel 2, cut at sixteen bytes, is handled as one for channel 0 and its rest as another request |
| Framing.StreamIsQueue | server/src/adcnetwork.c:213-214 | in whole transfers the byte stream refines the queue of records the protocol model uses |
| AdcInvariants.RunKeeps | server/src/adcnetwork.c:157-269 | every step of server and clients keeps the whole invariant, over any run |
| AdcTheorems.BatchSafety | server/src/adcnetwork.c:159-268 | the event handled next changes only the connection it was raised for and closes no descriptor but its own, whatever earlier events of the batch closed and accepted |
| AdcTheorems.AcceptIsFresh | server/src/adcnetwork.c:189-208 | accept never hands out a descriptor named by an event still in the batch or by a pending edge, even when that number was closed within the batch |
| AdcTheorems.InterestSet | server/src/adcnetwork.c:169-240 | the registered descriptors are exactly those of connections the server has open, and no descriptor belongs to two connections |
| AdcTheorems.ReadsNeverStarve | server/src/adcnetwork.c:211-220 | a read made for an event finds a request or the end of the stream, or fails because the client reset the connection meanwhile; the blank record then answered reaches nobody and nothing else changes |
| AdcTheorems.ClosedExactly | server/src/adcnetwork.c:169-240 | the handler of an event closes its connection exactly on an error, at the end of the stream, or on a request of type 2 for a channel without a device |
| AdcTheorems.RepliedExactly | server/src/adcnetwork.c:211-267 | it takes the oldest request if there is one, and adds exactly one reply, answering that request from this handler's device and clock reads, exactly if the request is not in vain, the write works and the client is there |
| AdcTheorems.SampledExactly | server/src/adcnetwork.c:232-242 | it reads a device exactly once, on the channel asked for, exactly for a request of type 2 on a channel that has one |
| AdcTheorems.AcceptedExactly | server/src/adcnetwork.c:189-208 | what each outcome of an accept call does to backlog, connection, epoll set, edges and loop |
| AdcTheorems.ListenErrorExactly | server/src/adcnetwork.c:169-178 | what an error of the listening socket closes, resets and forgets, and that accepted connections stay |
| AdcTheorems.NoneAfterListenError | server/src/adcnetwork.c:169-178 | in no later run is a connection made or accepted |
| AdcTheorems.FullReadFillsField | server/src/adcnetwork.c:246-246 | a full device read is as long as the data field of the record, four bytes |
| AdcTheorems.SampleAnswered | server/src/adcnetwork.c:222-262 | with the clock read as t, a device read returning four gives the record (1, type 2, t, value, channel), and any other return the request with valid 0 |
| AdcTheorems.LedgerAnswers | server/src/adcnetwork.c:213-299 | each reply answers the request it was made for: equal type and channel; valid is 1 exactly for type 1, or type 2 with a device read of four bytes, when the clock could be read; time and value are those read for it, and fields not filled stay as sent |
| AdcTheorems.ReadsNotShared | server/src/adcnetwork.c:241-255 | no device read answers two requests, on one connection or on two |
| AdcTheorems.FifoCorrespondence | server/src/adcnetwork.c:213-266 | on every connection the k-th reply is the one written for the k-th request, for all k, exactly if no failed write precedes a successful one |
| AdcTheorems.Conservation | server/src/adcnetwork.c:211-267 | requests sent = unread at the server + replies unread at the client + replies processed + replies a failed write lost |
| AdcTheorems.Provenance | client/fyyoscillometer/src/fyynet.cc:122-165 | an item a client emits carries its present channel, a value a four-byte device read returned on that channel and a clock reading, all made for a data request this client sent on its present connection |
| AdcTheorems.AnnouncedExactly | client/fyyoscillometer/src/fyynet.cc:137-165 | what the next readData of a client announces, in both directions, for every reply and channel |
| AdcTheorems.AnnouncedAsAnswered | client/fyyoscillometer/src/fyynet.cc:137-165 | a reply is announced with the clock reading made for its request, as the time or with the value of a four-byte device read, exactly if the request was of that type, on the channel the client is on, and the clock was read; else nothing is announced |
| AdcTheorems.DroppedIsFinal | client/fyyoscillometer/src/fyynet.cc:92-96 | no step of any later run processes a reply of a dropped connection or sends on it |
| AdcWakeups.UnheededExactly | server/src/adcnetwork.c:157-269 | for every step of clients and server: an open connection is left with a request or a close to read and no edge exactly if it was so before and its client does nothing, or if a handler takes one of several things to read with no new edge raised, or if an error of the listening socket forgets its event |
| AdcWakeups.UnheededForever | server/src/adcnetwork.c:157-220 | such a connection stays so, with the same requests unread, through every run in which its own client neither sends nor lets go and no reset arrives |
| AdcWakeups.BacklogExactly | server/src/adcnetwork.c:170-209 | for every step: connections are left waiting with no edge exactly if they were so before and nobody connects, or if accept, nonblock or epoll_ctl ends the accept loop with connections left and no new edge |
| AdcWakeups.BacklogForever | server/src/adcnetwork.c:185-209 | such connections stay waiting until another client connects |
| AdcWakeups.NoMissedWakeup | server/src/adcnetwork.c:185-220 | with stop-and-wait clients and no failure while accepting, at every return to epoll_wait each waiting connection and unread request has an edge pending |
| AdcWakeups.NoMissedClose | server/src/adcnetwork.c:211-220 | if clients besides let go only when no reply is due, no open connection is ever left with a request or a close to read and no edge |
| AdcProgress.Progress | server/src/adcnetwork.c:157-269 | after any disciplined run, while clients are silent, the server takes at most a stated number of steps and returns from epoll_wait at most once for each pending edge and waiting connection; after that many, or whenever it is at rest, no connection waits and every request is read |
| AdcProgress.RestIsReached | server/src/adcnetwork.c:157-269 | from every state some run of server steps without failures leads to rest |
| AdcProgress.AtRestExactly | server/src/adcnetwork.c:157-269 | no server step does anything exactly if no edge is pending, the batch is done and the accept loop is over |
| AdcWakeups.StrandedExactly | server/src/adcnetwork.c:211-267 | a handler leaves its connection open with something to read and no edge exactly if the event is no error, a request was there and is not refused, another request or a close was behind it, and no new edge had come |
| AdcWakeups.PipeliningStrands | server/src/adcnetwork.c:211-267 | from two requests sent at once, a reachable state in which the second stays unread through every run in which that client is silent |
| AdcWakeups.LeftOpenUntilReset | server/src/adcnetwork.c:169-183 | an open connection of a client that has gone, with no edge and a reset due, stays so exactly until the reset arrives, in every run in which the listening socket does not fail; from then on the server has closed it or closes it at its next event |
| AdcWakeups.DoomedCloses | server/src/adcnetwork.c:169-183 | the next event handled of a connection in that second state closes it |
| AdcWakeups.LeftOpenForever | server/src/adcnetwork.c:211-267 | with no reset due, such a connection is never looked at again in any run whatever |
| AdcWakeups.CloseBehindRequestStrands | server/src/adcnetwork.c:211-267 | a request with the close behind it, and a reply that is written: a reachable state in which the connection stays open and without an edge exactly until the reset arrives |
| AdcWakeups.CloseBehindFailedWrite | server/src/adcnetwork.c:264-266 | the same with a write that fails: it stays so in every run |
| AdcWakeups.FailedAcceptStrands | server/src/adcnetwork.c:190-194 | one failing accept: a reachable state with a connection waiting and no edge |
| AdcServerLoop.AdcServer.Dispatch | server/src/adcnetwork.c:222-262 | the switch refuses exactly data requests for channels without a device and otherwise builds the answer from the device and clock reads |
| AdcServerLoop.AdcServer.HandleConn | server/src/adcnetwork.c:169-267 | the handler of an accepted descriptor performs exactly one step of the system |
| AdcServerLoop.AdcServer.AcceptTurn | server/src/adcnetwork.c:189-208 | one accept with its setup failures performs exactly one step of the system |
| AdcServerLoop.AdcServer.DrainAccepts | server/src/adcnetwork.c:187-209 | the accept loop ends outside the drain, keeps the invariant and leaves the batch alone, with clients acting between calls |
| AdcServerLoop.AdcServer.HandleBatch | server/src/adcnetwork.c:167-268 | after the loop over a batch no event is left, the epoll set is the set of open descriptors, and the invariant holds |
| AdcServerLoop.ServeBatchReachable | server/src/adcnetwork.c:157-269 | the loop over a batch is a run of the system, so the theorems about reachable states hold at each return to epoll_wait |
| SampleWindow.CapIsAxisLength | client/fyyoscillometer/src/fyymon.cc:58-61 | maxDots is the smallest whole age in milliseconds that is off the axis |
| SampleWindow.CapHarmless | client/fyyoscillometer/src/fyymon.cc:240-245 | with arrivals at distinct milliseconds every sample evicted by count is already off the axis |
| SampleWindow.CapHarmfulExactly | client/fyyoscillometer/src/fyymon.cc:240-245 | for any arrival times, a sample on the axis is evicted exactly if the cap is reached and the sample at index maxDots - 1 is on the axis |
| SampleWindow.BurstLosesSample | client/fyyoscillometer/src/fyymon.cc:238-250 | on the screen of the program, a run of 28002 arrivals in one millisecond and a draw, after which one sample on the axis is missing |
| SampleWindow.Kept | client/fyyoscillometer/src/fyymon.cc:112-130 | with the clock re-read at each sample, those kept were on the axis when looked at and the first dropped was not |
| SampleWindow.WindowRefinement | client/fyyoscillometer/src/fyymon.cc:104-131 | after any run of arrivals, ties included, ending in a draw, the list holds, up to the cap, all samples ever added that are on the axis when the draw ends and only ones that were on it when the draw began, newest first |
| SampleWindow.WindowRefinementExact | client/fyyoscillometer/src/fyymon.cc:104-131 | with the clock still during the draw the list is the newest samples on the axis up to the cap, and all samples on the axis exactly if they are no more than the cap |
| SampleWindow.WindowRefinementDistinct | client/fyyoscillometer/src/fyymon.cc:104-131 | if all arrivals are at distinct milliseconds, the list holds every sample on the axis when the draw ends and only ones that were on it when the draw began |
| FyyMonitor.DataChart.AddData | client/fyyoscillometer/src/fyymon.cc:238-250 | addData yields the capped list with the new sample in front, wakes exactly an idle chart that is not frozen, and its eviction never meets an empty list |
| FyyMonitor.DataChart.DrawDot | client/fyyoscillometer/src/fyymon.cc:104-131 | one dot per sample kept, at its place, and the rest dropped without touching the timer |
| FyyMonitor.DataChart.DrawLine | client/fyyoscillometer/src/fyymon.cc:133-175 | the same dots and list, and each dot joined to its neighbour |
| FyyMonitor.DataChart.DrawPillar | client/fyyoscillometer/src/fyymon.cc:177-206 | one pillar per sample kept, and the same list |
| FyyMonitor.DataChart.DotRemoveOut | client/fyyoscillometer/src/fyymon.cc:214-222 | drops the oldest sample; on an empty list stops the timer |
| FyyMonitor.DataChart.Jiffies | client/fyyoscillometer/src/fyymon.cc:252-260 | a tick only draws: times, timer and visibility stay |
| FyyMonitor.DataChart.ChartTypeChanged | client/fyyoscillometer/src/fyymon.cc:292-315 | the effect of each chart type on visibility, timer and list |
| FyyMonitor.DotPlace | client/fyyoscillometer/src/fyymon.cc:114-121 | a sample just taken is drawn at the right edge, and each millisecond of age moves it left by the space of one millisecond |
| FyyMonitor.DotHeight | client/fyyoscillometer/src/fyymon.cc:120-122 | the value 0 is at the bottom, 1023 at the top, and greater values are strictly higher |
| FyyMonitor.DotOnProgramScreen | client/fyyoscillometer/src/fyymon.cc:32-38 | on the program's screen a sample is drawn 20 pixels from the right edge for each second of its age |
| FyyMonitor.DotsRightToLeft | client/fyyoscillometer/src/fyymon.cc:112-126 | with one clock reading the newest-first list is drawn from right to left |
| FyyMonitor.PillarPlace | client/fyyoscillometer/src/fyymon.cc:186-200 | a pillar stands on the bottom under its sample's dot and is half a second wide |
| FyyMonitor.DataChart.MyDraw | client/fyyoscillometer/src/fyymon.cc:78-102 | the picture recorded for each chart type, of the samples kept |
| FyyMonitor.DotOnScreen | client/fyyoscillometer/src/fyymon.h:38-45 | a dot lies on the screen exactly if its sample is on the axis and its raw value has at most ten bits |
| FyyMonitor.PhaseLock | client/fyyoscillometer/src/fyymon.cc:224-315 | after any public events at any times all active timers share one interval and one start, and no idle chart is visible |
| FyyMonitor.ShownExactly | client/fyyoscillometer/src/fyymon.cc:238-315 | after any events a chart of a drawing type is on the screen exactly if it is not idle, and no idle chart of any type is |
| FyyMonitor.UnconnectedIsHidden | client/fyyoscillometer/src/fyymon.cc:370-393 | a chart nobody connected stays idle and off the screen through any events |
| FyyMonitor.StartsQuiet | client/fyyoscillometer/src/fyymon.cc:55-71 | each chart starts as dots, idle, off the screen, with its timer stopped at one second |
| FyyMonitor.IdleExactly | client/fyyoscillometer/src/fyymon.cc:268-290 | which event makes a chart idle or ends that, for every chart and event |
| FyyMonitor.VisibleExactly | client/fyyoscillometer/src/fyymon.cc:268-315 | which event shows a chart or takes it off the screen |
| FyyMonitor.TickingExactly | client/fyyoscillometer/src/fyymon.cc:268-315 | which event starts or stops a chart's timer |
| FyyMonitor.TimerExactly | client/fyyoscillometer/src/fyymon.cc:262-290 | when a chart's timer starts over, the fan-out from other charts included, and what changes its interval and type |
| FyyMonitor.WiringExactly | client/fyyoscillometer/src/fyymon.cc:370-411 | what connecting and disconnecting do to source and fan-out |
| FyyMonitor.UnwiredBreaksPhase | client/fyyoscillometer/src/fyymon.cc:390-390 | without the fan-out a starting chart keeps the phase exactly if every other active timer started at that instant |
| FyyMonitor.TicksRegardlessExactly | client/fyyoscillometer/src/fyymon.cc:268-315 | after any event a frozen or hidden chart's timer is active exactly if the event restarts it (source up, a sample waking a hidden chart, a new refresh period) or it was and the event does not settle it |
| FyyMonitor.SeenThoughHiddenExactly | client/fyyoscillometer/src/fyymon.cc:268-315 | the same for a hidden chart being visible, which a new refresh period does not cause |
| FyyMonitor.FrozenTicks | client/fyyoscillometer/src/fyymon.cc:268-290 | a run in which a frozen chart ticks again once its source comes up |
| FyyMonitor.HiddenShows | client/fyyoscillometer/src/fyymon.cc:268-290 | a run in which a hidden chart is back on the screen once its source comes up |
| FyyMonitor.FyyMon.SyncUpdateFrame | client/fyyoscillometer/src/fyymon.cc:413-418 | every active timer restarts, the others and all samples stay |
| FyyMonitor.FyyMon.SetFramePeriod | client/fyyoscillometer/src/fyymon.cc:420-425 | all four timers run with the new interval from one instant, idle or not |
| FyyMonitor.FyyMon.ConnectChart | client/fyyoscillometer/src/fyymon.cc:370-393 | wires a chart exactly for the four valid numbers, refuses a null channel and other numbers, and for number 4 goes past its array |
| FyyMonitor.FyyMon.DisconnectChart | client/fyyoscillometer/src/fyymon.cc:395-411 | with the same cases, the chart loses its source and goes idle, its wiring to the fan-out stays |
| FyyMonitor.FyyMon.DataSrcOn | client/fyyoscillometer/src/fyymon.cc:268-290 | a source coming up shows the chart and puts all active timers in phase |
| FyyMonitor.FyyMon.AddData | client/fyyoscillometer/src/fyymon.cc:238-250 | a new sample performs the list operation and, if it wakes the chart, the fan-out |
| FyyMonitor.FyyMon.ChartTypeChanged | client/fyyoscillometer/src/fyymon.cc:292-315 | a type change performs one step of the timer machine |
| FyyMonBackground.FyyMonBackground.MyDraw | client/fyyoscillometer/src/fyymon.cc:463-490 | the three loops draw exactly the rows and exactly the columns, each once and in order |
| FyyMonBackground.RowsAreMultiples | client/fyyoscillometer/src/fyymon.cc:473-482 | there is a row at y exactly if y is a multiple of the spacing within the height |
| FyyMonBackground.ColumnsAreMultiples | client/fyyoscillometer/src/fyymon.cc:483-487 | there is a column at x exactly if x is a multiple of the spacing within the width |
| FyyMonBackground.LastLinesOnBorder | client/fyyoscillometer/src/fyymon.h:42-42 | on a screen rounded down to the spacing the last row and column are the border |
| FyyChannel.ReconnectInvariant | client/fyyoscillometer/src/fyych.cc:323-375 | over any run a live socket goes to the target configured now, reConnect is raised unless connected or closing, and every datagram went to the target and with the channel configured when it was sent |
| FyyChannel.FlagLeftExactly | client/fyyoscillometer/src/fyych.cc:341-375 | a step makes the flag wrong exactly if it unticks the box, target unchanged, on a connected socket with bytes unwritten |
| FyyChannel.FlagMeansConnected | client/fyyoscillometer/src/fyych.cc:341-375 | over any run without that step reConnect is false exactly while connected |
| FyyChannel.AllowedMeansLive | client/fyyoscillometer/src/fyych.cc:341-353 | accepting the dialog with connecting allowed leaves a live socket to the new target, except exactly when the old socket is closing with the flag down and the target is unchanged |
| FyyChannel.UntickedGivesUp | client/fyyoscillometer/src/fyych.cc:350-353 | accepting it with the box unticked leaves no live socket, and which of unconnected, closing and given up while connecting it is |
| FyyChannel.UntickedIsQuiet | client/fyyoscillometer/src/fyych.cc:350-353 | and until the dialog is accepted with the box ticked again nothing is sent, whatever happens |
| FyyChannel.TickedConnectsExactly | client/fyyoscillometer/src/fyych.cc:341-349 | accepting it with the box ticked begins a new connection exactly if the flag is up or the target changed, and else leaves the socket alone |
| FyyChannel.ConfiguredExactly | client/fyyoscillometer/src/fyych.cc:169-250 | which fields are accepted and what they set, the channel cut to eight bits and the port to sixteen, over any run |
| FyyChannel.SettingsKept | client/fyyoscillometer/src/fyych.cc:323-375 | no step but the dialog changes a setting |
| FyyChannel.StartsUnconnected | client/fyyoscillometer/src/fyych.cc:284-310 | a channel starts unconnected and not allowed to connect, with port 65000 of the local host |
| FyyChannel.ConnectedExactly | client/fyyoscillometer/src/fyych.cc:341-375 | for every step, exactly when the channel is connected after it |
| FyyChannel.ConnectingExactly | client/fyyoscillometer/src/fyynet.cc:92-120 | for every step from any state runs keep to, exactly when an attempt is under way after it, and to which peer |
| FyyChannel.GivenUpExactly | client/fyyoscillometer/src/fyynet.cc:77-90 | for every step, exactly when an attempt is under way that has been given up |
| FyyChannel.ClosingExactly | client/fyyoscillometer/src/fyynet.cc:77-90 | for every step, exactly when the socket is closing |
| FyyChannel.RaisedExactly | client/fyyoscillometer/src/fyych.cc:341-375 | for every step, exactly when the reconnect flag is up after it |
| FyyChannel.SentExactly | client/fyyoscillometer/src/fyynet.cc:56-75 | a step sends exactly if the channel is connected and the time is asked for or a running sample timer fires, and then one record to the target and on the channel configured |
| FyyChannel.SamplingExactly | client/fyyoscillometer/src/fyych.cc:364-369 | the sample timer runs once a connection has been made, and from then on |
| FyyChannel.UnwrittenExactly | client/fyyoscillometer/src/fyynet.cc:68-75 | the bytes still to be written after every step |
| FyyChannel.EndedRaisesFlag | client/fyyoscillometer/src/fyych.cc:370-375 | however a connection ends, the flag is up, and what ends one |
| FyyChannel.LostReconnect | client/fyyoscillometer/src/fyych.cc:341-353 | a run (connect, request a sample, untick and tick while it is being written) that ends allowed to connect but unconnected |
| FyyChannel.FyyCH.SetConf | client/fyyoscillometer/src/fyych.cc:169-250 | which fields are accepted, and what accepting them changes |
| FyyChannel.FyyCH.MouseReleaseEvent | client/fyyoscillometer/src/fyych.cc:323-354 | closing the dialog performs exactly one step of the channel |
| FyyChannel.FyyCH.OnConnected | client/fyyoscillometer/src/fyych.cc:364-369 | becoming connected lowers the flag and starts sampling, and carries out a close asked for meanwhile |
| FyyChannel.FyyNet.SendRequest | client/fyyoscillometer/src/fyynet.cc:56-75 | only a connected socket is written to, with one whole record of this type and the channel set last |
| FyyChannel.FyyNet.ReadData | client/fyyoscillometer/src/fyynet.cc:122-165 | one record is taken and judged, a short read is thrown away |
| FyyChannel.ReaderLag | client/fyyoscillometer/src/fyynet.cc:122-135 | with replies arriving in batches, one signal and one read each, the k-th reply is judged at the k-th signal and exactly the replies beyond the number of signals wait |
| FyyChannel.KeepsUpExactly | client/fyyoscillometer/src/fyynet.cc:122-135 | the bytes left waiting are those of replies minus signals; none exactly if no two replies share a signal |
| FyyChannel.FyyNet.ReConnectNet | client/fyyoscillometer/src/fyynet.cc:92-120 | abort, dropping both buffers, and connect anew, refusing the null address |
| Fl2440AdcFile.RegistrationBalance | drivers/fl2440adcdri.c:77-147 | over every interleaving each slot is (NULL,0), (c,1) or (c,0), registrations minus frees is 1 or 0 as a client is held or not, and the slot is told by the releases since the last registration |
| Fl2440AdcFile.ClientHeldExactly | drivers/fl2440adcdri.c:134-150 | with files open a client is held, and release is not handed NULL, exactly while fewer than two files were released since registration |
| Fl2440AdcFile.OverlapReleasesNull | drivers/fl2440adcdri.c:134-150 | three overlapping opens after which release is handed NULL |
| Fl2440AdcFile.ReadsOwnChannelExactly | drivers/fl2440adcdri.c:79-114 | a file's reads ask for its own channel exactly if its open registered the client or it is on channel 0 |
| Fl2440AdcFile.ReadHandedNullExactly | drivers/fl2440adcdri.c:104-114 | over every interleaving a read is handed NULL exactly if the channel it asks for, its own or channel 0, had no client registered or two releases or more since the last |
| Fl2440AdcFile.SecondOpenAsksForZero | drivers/fl2440adcdri.c:79-114 | two overlapping opens of channel 3, after which the read of the second file asks for channel 0 and is handed NULL |
| Fl2440AdcFile.EveryOtherRound | drivers/fl2440adcdri.c:77-147 | with one file at a time, refused and failed opens allowed, release never sees NULL, a client is left registered exactly after an odd number of rounds, and an open file registered it exactly after an even number |
| Fl2440AdcFile.EveryOtherFileAsksForZero | drivers/fl2440adcdri.c:77-147 | so on channels 1 to 3 a file asks for its own channel after an even number of rounds and for channel 0 after an odd one |
| Fl2440AdcFile.EveryOtherFileReadsNull | drivers/fl2440adcdri.c:77-147 | and if channel 0 too has one file at a time, its read is handed NULL exactly after an odd number of rounds while channel 0 has no open file and an even number of rounds behind it |
| Fl2440AdcFile.OpenExactly | drivers/fl2440adcdri.c:64-102 | a non-blocking open is refused with -22 and changes nothing; else it succeeds exactly if a client is there or is registered now, and counts only then |
| Fl2440AdcFile.Fl2440Adc.Open | drivers/fl2440adcdri.c:64-102 | slot, return code and private data after open, other channels untouched |
| Fl2440AdcFile.Fl2440Adc.Release | drivers/fl2440adcdri.c:134-150 | slot after release, and what the ADC core is given to free |
| Fl2440AdcModule.Fl2440AdcModule.RegisterDevice | drivers/fl2440adcdev.c:33-53 | all four devices, or after the rollback none |
| Fl2440AdcModule.Fl2440AdcModule.UnregisterDevice | drivers/fl2440adcdev.c:56-65 | every device goes, and with it its binding, cdev and node |
| Fl2440AdcModule.Fl2440AdcModule.Probe | drivers/fl2440adcdri.c:161-191 | a minor gains cdev and class device together or neither |
| Fl2440AdcModule.Fl2440AdcModule.Init | drivers/fl2440adcdri.c:213-273 | returns 0 exactly if every call works, then holding everything; else the error of the first call to fail, holding nothing |
| Fl2440AdcModule.Fl2440AdcModule.Exit | drivers/fl2440adcdri.c:275-282 | from any loaded state, whatever is bound, every node is gone before the class is destroyed and nothing is left |
| Fl2440AdcModule.StaysLoaded | drivers/fl2440adcdri.c:161-202 | through any binding, failed probing and unbinding the loaded module keeps cdevs, class devices and bound devices equal |
| Fl2440AdcModule.OnBusExactly | drivers/fl2440adcdri.c:161-202 | for every bus event and minor, exactly when it is bound after it, with cdev and node alike |
| PidFile.ReadBackExactly | server/src/adcserverexit.h:59-65 | the pid is read back right exactly if what follows it in the buffer does not start with a digit |
| PidFile.ExitBreaksLockExactly | server/src/adcserverexit.h:59-74 | -x takes the file from a live holder exactly if stray digits turn its pid into the pid of no process |
| PidFile.StaleFileClearedExactly | server/src/adcserverexit.h:59-74 | with a clean buffer -x signals whichever process has the pid in the file and removes the file exactly if there is none |
| PidFile.ExitClearsTheWay | server/src/adcdaemonize.c:39-63 | a server cannot take the file of one that has gone, and after one -x it can |
| PidFile.CrashedServerReplaced | server/src/adcdaemonize.c:39-63 | after any clean run, a server that crashes while it holds the file can be replaced after one -x |
| PidFile.TakesFileExactly | server/src/adcdaemonize.c:39-63 | a starting server holds the file exactly if there was none and the write did not fail, and what the file then contains |
| PidFile.RemovesExactly | server/src/adcdaemonize.c:65-85 | whether a holder that removes its file lives on, and when the file goes |
| PidFile.EmptyFileExactly | server/src/adcserverexit.h:59-74 | what -x makes of an empty file |
| PidFile.MutualExclusion | server/src/adcdaemonize.c:39-85 | over any run of starts, crashes, exits and -x calls with clean buffers and no short write, and with pids reused, at most one live server is between write and remove, the file holds its pid, and its remove deletes the file |
| PidFile.StaleDigitBreaksExclusion | server/src/adcserverexit.h:59-74 | a run with two holders, from one stray digit |
| PidFile.ShortWriteExactly | server/src/adcdaemonize.c:52-53 | what a write left of the pid is read back as the pid exactly if every digit was written |
| PidFile.ShortWriteBreaksExclusion | server/src/adcdaemonize.c:52-63 | a run with two holders, from one short write |
| PidFile.PidFile.WritePid | server/src/adcdaemonize.c:39-63 | exclusive creation, the empty file a failed write leaves, and the truncated pid a short write leaves while reporting success |
| PidFile.PidFile.RemovePid | server/src/adcdaemonize.c:65-85 | the file goes exactly if it names the caller (an unset variable stands for an empty file), and without a file the call reads a null stream |
| PidFile.PidFile.ServerExit | server/src/adcserverexit.h:39-75 | who is signalled, and when the file is unlinked |

## Left out

- Qt widgets, layouts, colours, the meter chart (a stub), the state board and log viewer: user interface without state of interest; a drawing is the list of its dots, lines, pillars or rows.
- Creating the listening socket, option parsing, daemonizing, syslog and the allocation of devices at start: environment. Options that write channel 4 past the device array (server/src/main.c:161) are outside the model.
- The kernel: epoll, accept, read, write, close, the ADC core, cdev, class and platform calls are abstract steps that may fail. Assumed: epoll_wait names a descriptor once, close deregisters, accept returns an unused descriptor, drivers are unbound synchronously.
- A failure of epoll_wait itself, which ends adc_server_conn, and the signal that causes it.
- FyyMonitor.FyyMon.ConnectChart: says of number 4 only that the code goes past its array, not what that memory does; and connecting a channel twice, which delivers each of its samples twice, is modelled as connecting it once.
- AdcTheorems.FifoCorrespondence: is at the granularity of whole records; module Framing says which byte streams behave so.
- AdcTheorems.ReadsNeverStarve: the signal SIGPIPE, which a write to a reset connection raises and the server does not ignore, is not modelled; the program's run ends there, the model's goes on.
- AdcWakeups.LeftOpenUntilReset: the reset a reply provokes is a step of its own that takes any time to arrive; one lost for ever by the network is a run in which it never does.
- AdcProgress.Progress: bounds steps and returns of epoll_wait, not time; the loop that retries a write while the socket buffer is full (server/src/adcnetwork.c:264-266) is one step.
- Framing.HandledInOrder: a read of the server that finds no bytes is left to module AdcNetwork.
- SampleWindow.WindowRefinement: does not model the wrap of the clock at midnight, a clock set back, nor floating-point rounding; times are integers of one day and spacing is over the reals.
- FyyMonitor.PhaseLock: takes a signal fan-out as one instant, and does not model overflow of the interval in 32 bits; the refresh field admits at most four characters.
- FyyChannel.ReaderLag: fixes the channel over the signals considered, and takes one signal for each batch of bytes that arrives.
- FyyChannel.ReconnectInvariant: takes the modal dialog as one step, so events delivered while it is open come before or after it; host names are numbers; overflow of the sample interval is not modelled.
- PidFile.MutualExclusion: takes write, remove and -x as atomic, so races between the calls inside each are not covered; pids are not bounded and atoi does not overflow.
- DataGrams.DecodeEncode: fixes the 32-bit layout at both ends; padding is written as zero and ignored when read.
- The mutex around driver calls: each call is one step. Opening a node in the moment between driver registration and initialisation of the mutex is not modelled.
- copy_to_user in the driver's read, and libs3cadc beyond the size its read returns.
