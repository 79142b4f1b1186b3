# Verification of the AJA capture plugin

A Dafny 4.11 model of the live capture pipeline in `gst-plugin/aja`, with proofs about it. Run
`dafny verify dfyconfig.toml` in this directory to check everything.

One capture thread (`ACInputWorker`) numbers frames and hands each one to a video source and then
to an audio source. Each source keeps a bounded queue that drops its oldest entries, and a
streaming thread takes entries out. Around this there are a clock mapping that is slewed in small
steps, a drift detector for audio, an allocator of DMA-locked blocks, a clock on the audio sample
counter, the routing of an input to its frame buffer, and a shutdown handshake.

## How the model is built

| module | what it models |
|---|---|
| `Arithmetic` | floor scaling, unsigned subtraction, bounds on rounding |
| `TimeMapping` | the sampling window and the slewed mapping, as class `TimeMapper` |
| `Slewing`, `SampleWindow` | what the mapping and the window guarantee |
| `DropAccounting` | the drop counters that both sources keep |
| `VideoSource` | the video element, as class `Source`: capture callback, queue, streaming side |
| `BufferOwnership` | who holds the buffers of a pool, for video and audio alike |
| `VideoRuns`, `SignalKnowledge` | all runs of the signal and queue half of the video element |
| `Walks` | runs of a state machine given by two functions |
| `VideoElement` | all runs of the whole video element; stream times |
| `FrameTimes` | the times and marks of the frames of a run, told by its calls |
| `SegmentTimes`, `Convergence` | timestamps and slewing within a signal segment, over runs of the element |
| `QueueLength`, `InterruptedCreate` | how long the queue can get; a run that makes a message wrong |
| `AudioSource`, `AudioRuns` | the audio element and its queue |
| `AudioTiming`, `AudioDelivery` | its timestamps, over buffers and over the packets that a run delivers |
| `AudioVideoSync` | agreement of audio with video |
| `CaptureWorker`, `CapturePath` | the capture thread, and how it feeds the elements |
| `Shutdown` | Run, Quit and the workers as a state machine |
| `BlockAllocator`, `SharedMemory` | the DMA allocator; shares and copies of memories |
| `HardwareClock` | the clock and its continuity over restarts |
| `Routing` | single-link SDI routing |

Objects whose methods change fields are classes. A class has a `View()` that collects its fields
into a value, and each method's contract gives the new view as a function of the old one. The
functions are what the lemmas are about. Device readings, buffer addresses, capture times and the
result of the linear regression are parameters, so a statement about all of them holds for
anything the device does. Calls that leave an element (buffers released, messages posted, blocks
locked) are kept as ghost logs. Histories of runs, such as the list of accepted frames, exist only
in the modules about runs.

One capture callback is one atomic step, and so is one call from the streaming side, except that
`create` is two: what it does under the queue lock, and what it does after giving it up. The code
pushes signal placeholders without the queue lock (gst-plugin/aja/gstajavideosrc.cpp:1057 and
1076); the model does not show what that may lead to.

## Where the code departs from what one would expect

The model follows the code. Each departure has a lemma that gives the exact condition or a concrete
run.

- A queue of size one loses a first or recovered signal (`VideoElement.KnowledgeSurvivesIff`); a
  flush loses what was not yet notified (`SignalKnowledge.FlushKeepsKnowledgeIff`,
  `VideoElement.KnowsThroughoutIff`, `VideoElement.FlushForgets`); a new start makes the signal unknown
  without telling anyone (`SignalKnowledge.StartTellsNothing`).
- Each new start while the signal is lost lets the loss be queued again, so n starts can leave n
  entries more than the size allows until the next frame is accepted (`QueueLength.StartsAttain`,
  `VideoRuns.AcceptanceTrims`).
- While initial frames are skipped, a flickering signal can fill the queue beyond its size: by how
  much depends on the clock behind the capture times. On a clock that does not fall behind the frame
  numbers the size is kept exactly if it has room for two placeholders per frame that fits into the
  skip time and there is no new start; on one that stands still, as capture times do before the base
  time, there is no bound
  (`QueueLength.LengthBoundedOnTimeIff`, `QueueLength.LengthBoundedIff`).
- Once the initial skip has skipped a frame, the first frame that is taken is not marked as the first of
  its segment (`FrameTimes.QueuedInRuns`), and the same for audio packets.
- The capture delay is measured in microseconds and subtracted from nanoseconds
  (`VideoElement.CaptureTimeOffByUnits`).
- `create` reads a counter for the QoS message after it has given up the lock (lines 1422 and 838 of
  the two sources), so the statistics can wrap around (`VideoRuns.QosRightIff`,
  `AudioRuns.QosRightIff`, `InterruptedCreate.InterruptedCreateMiscounts`). They can also do so when
  the streams are started again with the old counters: the same condition covers this.
- The gap that dropping makes is not flagged where it is, but on the first frame whose arrival drops
  nothing (`VideoRuns.GapNotFlagged`, `VideoRuns.BurstEndFlagged`, `AudioRuns.BurstEndFlagged`).
- A mapping much slower than real time can move timestamps back (`Slewing.SlowMappingGoesBack`).
- The extended drop counter is one short for each wrap of the 32-bit counter
  (`CaptureWorker.CounterShortByWraps`).
- Audio frame numbers have 32 bits, video ones 64; and the audio source's assertion fails if the
  streams are started between a frame's two callbacks (`AudioVideoSync.AudioAgreesIff`,
  `AudioVideoSync.AssertionFails`).
- Each audio packet within the initial skip leaks a reference to the video source: that path of the
  callback returns without giving it up (`AudioSource.LeaksReference`, the contract of `GotPacket`).
- An audio buffer that starts before the drift timer is resynchronised at once
  (`AudioTiming.EarlierStartResyncsAtOnce`).
- Starting streams while a worker is alive leaves a worker behind that Quit does not know
  (`Shutdown.RunTracksIff`, `Shutdown.OrphanOutlivesQuit`).
- Stopping video can hang, since it holds the lock that the audio callback takes. Stopping audio
  first does not prevent it: the worker may have tested before that whether audio is enabled
  (`Shutdown.QuitUnderLockCanHangIff`, `Shutdown.QuitReturnsIff`, `Shutdown.StopUnderLockHangs`,
  `Shutdown.AudioStoppedFirstHangs`).
- The clock leaps when the sample counter wraps after restarts have skipped much time
  (`HardwareClock.CounterWrapLeapsIff`, `HardwareClock.CounterWrapLeaps`), and jumps ahead when it is
  restarted after the hardware has gone back (`HardwareClock.RestartContinuesIff`).
- A share without a size gets a size that has wrapped around, or reaches back, where a copy would be
  empty (`SharedMemory.CopyMatchesShareIff`).

## Model

| member | source | states |
|---|---|---|
| TimeMapping.TimeMapper.Restart | gst-plugin/aja/gstajavideosrc.cpp:796-807 | a start empties the window and resets both mappings, and leaves the pending flag and the stored times alone |
| TimeMapping.TimeMapper.BumpSkipCount | gst-plugin/aja/gstajavideosrc.cpp:951-955 | the skip counter goes round modulo the current skip |
| TimeMapping.TimeMapper.Sample | gst-plugin/aja/gstajavideosrc.cpp:897-955 | recording, widening the skip, anchoring and taking over a regression change the state as the function the window lemmas are about says |
| TimeMapping.TimeMapper.Update | gst-plugin/aja/gstajavideosrc.cpp:893-1002 | the whole update equals sampling followed by slewing, the functions all mapping lemmas are about; no subtraction in it underflows |
| Slewing.AdjustAdvance | gst-plugin/aja/gstajavideosrc.cpp:960-967 | over a span of stream time a mapping advances by the scaled span within 1 ns, unless it stays at the clamp at 0, and never goes back |
| Slewing.AdjustExact | gst-plugin/aja/gstajavideosrc.cpp:1110-1115 | a mapping gives its base at its base point and from there the exact rational distance to within 1 ns, never below 0 |
| Slewing.SlewMovesAtMostMaxDiff | gst-plugin/aja/gstajavideosrc.cpp:957-1001 | one update moves the mapping at the current time straight towards the pending one by the smaller of the gap and max_diff, and moves it further exactly when it jumps |
| Slewing.TakesOverPending | gst-plugin/aja/gstajavideosrc.cpp:990-999 | a pending mapping that an update takes over is the current one for all times to come, and until then the slope stays and the pending mapping stays what it is |
| Slewing.DiscontTakesOver | gst-plugin/aja/gstajavideosrc.cpp:981-999 | a discontinuity takes the pending mapping over at once |
| Slewing.StaysPendingIff | gst-plugin/aja/gstajavideosrc.cpp:981-999 | without one it stays pending if and only if it is more than max_diff and less than 50 ms away |
| Slewing.TimestampKeptIff | gst-plugin/aja/gstajavideosrc.cpp:957-1001 | exactly when an update keeps the next timestamp at or after an earlier one, for slewing and for jumping |
| Slewing.MaxDiffIsATwentieth | gst-plugin/aja/gstajavideosrc.cpp:974-977 | the limit per frame is a twentieth of the frame duration, rounded down |
| Slewing.NextTimestampLater | gst-plugin/aja/gstajavideosrc.cpp:1106-1115 | in a segment without a jump the next frame's timestamp is strictly later, unless the previous one was clamped at 0 |
| Slewing.TimestampsIncrease | gst-plugin/aja/gstajavideosrc.cpp:1106-1115 | over a whole segment timestamps never decrease and strictly increase once positive, for any regression results that run at a tenth of real time or faster |
| Slewing.SlowMappingGoesBack | gst-plugin/aja/gstajavideosrc.cpp:990-993 | a run of 65 updates after a start, whose regressions return mappings that stand still, in which slewing moves a timestamp back by max_diff |
| Slewing.GapShrinks | gst-plugin/aja/gstajavideosrc.cpp:985-993 | with slopes within 1/40, the gap seen one frame later is smaller by at least half of max_diff less 3 ns, or within one step |
| Slewing.SlewingConverges | gst-plugin/aja/gstajavideosrc.cpp:957-1001 | slewing terminates: a gap below 50 ms is closed within gap divided by that amount of frames, and the mapping that was pending is then the current one |
| Slewing.ConvergesWithinTwoSeconds | gst-plugin/aja/gstajavideosrc.cpp:974-985 | at 60 frames per second any gap below 50 ms is gone after 121 frames |
| Convergence.PendingIsTakenOver | gst-plugin/aja/gstajavideosrc.cpp:957-1001 | in runs of the element: from any moment of a segment a pending mapping less than 50 ms away is the current one within that many of its frames, however other calls fall between them; the spacing of the frames follows from their numbers |
| SampleWindow.StartForgets | gst-plugin/aja/gstajavideosrc.cpp:796-799 | a start forgets all recorded pairs; the pending flag and the memory of the window stay |
| SampleWindow.UpdateRecords | gst-plugin/aja/gstajavideosrc.cpp:897-955 | each update keeps: the window holds the latest 64 recorded pairs, the skip after k fills is min(2^k, 4 fps), the skip counter stays below the skip, and only the first half of the array is written |
| SampleWindow.WindowHoldsLatest | gst-plugin/aja/gstajavideosrc.cpp:897-955 | after a start and any updates all that holds for the pairs recorded since |
| SampleWindow.WindowIsARotation | gst-plugin/aja/gstajavideosrc.cpp:901-923 | once filled, the window is a rotation of the latest 64 pairs |
| SampleWindow.AnchoredExactlyOnce | gst-plugin/aja/gstajavideosrc.cpp:925-932 | an update with nothing recorded yet, and no other, takes its pair as the mapping, which then maps it onto itself |
| SampleWindow.FirstUpdateAnchors | gst-plugin/aja/gstajavideosrc.cpp:925-932 | of any updates after a start exactly the first anchors the mapping |
| SampleWindow.RegressionUsedIff | gst-plugin/aja/gstajavideosrc.cpp:935-948 | a regression becomes the pending mapping exactly when the update records a pair and the window is full with it |
| SampleWindow.FpsIsCeiling | gst-plugin/aja/gstajavideosrc.cpp:909-918 | frames per second are rounded up |
| FrameTimes.WindowInRuns | gst-plugin/aja/gstajavideosrc.cpp:897-955 | over every run of the element the window holds the latest 64 of the pairs that the frames taken since the last start have recorded |
| FrameTimes.FirstTakenIsAnchor | gst-plugin/aja/gstajavideosrc.cpp:925-932 | over every run the first frame taken after a start, and no other, starts the mapping afresh, and gets its own capture time as timestamp |
| FrameTimes.TakenFrameMoves | gst-plugin/aja/gstajavideosrc.cpp:957-1001 | of every taken frame: when the mapping stays pending, when it is taken over, and that it is then the current one |
| DropAccounting.CountedKeepsAccounts | gst-plugin/aja/gstajavideosrc.cpp:1125-1161 | for every list of drops the counters split it into reported bursts and the burst under way, and name the first and last drop of each |
| DropAccounting.CoverCounts | gst-plugin/aja/gstajavideosrc.cpp:1145-1158 | the counts of the posted warnings add up to the drops they cover |
| BufferOwnership.MoveKeepsSound | gst-plugin/aja/gstntv2.cpp:1804-1815 | every way in which a buffer moves between pool, worker, queue, create and downstream keeps each capture reference accounted for and no buffer held twice |
| BufferOwnership.SoundMeansOneOwner | gst-plugin/aja/gstntv2.cpp:1892-1921 | then a buffer has as many references as owners, at most one, and each capture reference not held was given back exactly once |
| VideoSource.Source.constructor | gst-plugin/aja/gstajavideosrc.cpp:262-289 | a new element has an empty queue, unknown signal and cleared counters |
| VideoSource.Source.Clear | gst-plugin/aja/gstajavideosrc.cpp:84-92 | clearing an entry releases its buffer if it holds one |
| VideoSource.Source.NoteLoss | gst-plugin/aja/gstajavideosrc.cpp:1045-1062 | a loss is noted and queued once, and not queued while flushing |
| VideoSource.Source.StartSegment | gst-plugin/aja/gstajavideosrc.cpp:1063-1084 | a first or recovered signal is queued and a new segment starts at this frame and time |
| VideoSource.Source.PopOldest | gst-plugin/aja/gstajavideosrc.cpp:1126-1138 | one turn of the drop loop extends the dropped prefix, its released buffers, its counters and its rescued change by one entry |
| VideoSource.Source.DropOldest | gst-plugin/aja/gstajavideosrc.cpp:1125-1139 | the loop drops exactly the prefix that makes room for one entry, releases its buffers and rescues a recovery, else a first signal |
| VideoSource.Source.SettleCounters | gst-plugin/aja/gstajavideosrc.cpp:1141-1161 | a burst is reported exactly when nothing was dropped and something was before |
| VideoSource.Source.Enqueue | gst-plugin/aja/gstajavideosrc.cpp:1119-1185 | the locked section drops, settles the counters, writes a rescued change into the head and appends the frame, marked if it ends a burst |
| VideoSource.Source.TimeFrame | gst-plugin/aja/gstajavideosrc.cpp:1086-1115 | stream time, initial skip, mapping update and timestamp of a frame with signal equal the function that the lemmas about the times of frames are about |
| VideoSource.Source.GotFrame | gst-plugin/aja/gstajavideosrc.cpp:1004-1190 | the whole callback equals the composition of its time half and its signal and queue half, on every path |
| VideoSource.Source.Dequeue | gst-plugin/aja/gstajavideosrc.cpp:1302-1332 | entries are taken in order, changes notified, placeholders passed over, and the first frame is held; nothing is taken while flushing |
| VideoSource.Source.Deliver | gst-plugin/aja/gstajavideosrc.cpp:1396-1427 | the frame held is passed on with the statistics as the counter stands then, and its capture reference released |
| VideoSource.Source.Drain | gst-plugin/aja/gstajavideosrc.cpp:618-621 | draining releases every queued buffer once |
| VideoSource.Source.Unlock | gst-plugin/aja/gstajavideosrc.cpp:595-606 | unlock only sets the flushing flag |
| VideoSource.Source.UnlockStop | gst-plugin/aja/gstajavideosrc.cpp:610-625 | the end of a flush drains the queue and forgets no signal state |
| VideoSource.Source.Stop | gst-plugin/aja/gstajavideosrc.cpp:769-774 | stopping drains the queue and makes the signal unknown |
| VideoSource.Source.StartStreams | gst-plugin/aja/gstajavideosrc.cpp:791-808 | starting streams forgets the signal, the segment, the first time and the window |
| VideoSource.Source.ClearCounters | gst-plugin/aja/gstajavideosrc.cpp:527-530 | a start clears the drop counters |
| VideoRuns.DequeuedTakesFirst | gst-plugin/aja/gstajavideosrc.cpp:1303-1332 | one create call takes exactly the first real frame, and notified plus queued signal changes stay the same sequence |
| VideoRuns.EnqueuedReals | gst-plugin/aja/gstajavideosrc.cpp:1125-1183 | frames queued before plus the new one are, in order, the frames dropped plus the frames queued after, whatever is rescued |
| VideoRuns.InvHolds | gst-plugin/aja/gstajavideosrc.cpp:1004-1190 | over every run, new starts included: ledger of accepted frames, ownership of buffers, drop accounting, numbering since the last start, and what create knew of the frame it holds |
| VideoRuns.QueueIsMostRecent | gst-plugin/aja/gstajavideosrc.cpp:1125-1183 | over every run the queued frames are the latest accepted ones, frames leave in order, and those of one start have strictly increasing numbers |
| VideoRuns.EventMoves | gst-plugin/aja/gstntv2.cpp:1804-1815 | every event, with callbacks that refuse and buffers the worker releases itself, moves buffers in one of the ways that keep them owned |
| VideoRuns.EachReferenceReleasedOnce | gst-plugin/aja/gstajavideosrc.cpp:1038-1041 | over every run each buffer is owned by exactly one of worker, queue, create, downstream and pool, and each capture reference is given back exactly once |
| VideoRuns.DropCountersExact | gst-plugin/aja/gstajavideosrc.cpp:1130-1161 | over every run skipped_overall + skipped_last is the number of dropped frames, and skip_from and skip_to are the ends of the current burst |
| VideoRuns.QosRightIff | gst-plugin/aja/gstajavideosrc.cpp:1411-1425 | over every run: a message is due exactly for a frame after a drop; processed is the frames processed less the drops reported, and both add up to frameNumber + 1, if and only if the drops reported when create took the frame and since then do not exceed the frames processed; the former alone never do within one start |
| VideoRuns.QosAddsUp | gst-plugin/aja/gstajavideosrc.cpp:1411-1425 | so they add up to frameNumber + 1 whenever no burst was reported while create held the frame |
| VideoRuns.PassedOnAsQueued | gst-plugin/aja/gstajavideosrc.cpp:1302-1427 | over every run, what create passes on is one of the accepted frames, with the buffer and the times that it was queued with |
| VideoRuns.GapNotFlagged | gst-plugin/aja/gstajavideosrc.cpp:1125-1183 | for every queue, size and frame: when frames are dropped the next frame delivered is the one that arrived after the gap and is flagged exactly if it arrived flagged |
| VideoRuns.BurstEndFlagged | gst-plugin/aja/gstajavideosrc.cpp:1141-1181 | of two frames accepted one after the other in any run, the second is flagged beyond its own flag exactly when the first drove frames out and the second does not |
| VideoRuns.LengthHolds | gst-plugin/aja/gstajavideosrc.cpp:1045-1183 | every run whatever: the queue exceeds its size by at most two entries for each skipped frame, one for each new start, and one for the loss under way |
| VideoRuns.AcceptanceTrims | gst-plugin/aja/gstajavideosrc.cpp:1125-1183 | in any state, the queue is no longer than its size after an accepted frame |
| VideoRuns.LengthFromOneStart | gst-plugin/aja/gstajavideosrc.cpp:1125-1183 | a run from one start that skips only initial frames: the queue exceeds its size, or twice the frames skipped, by at most one entry |
| VideoRuns.FlushHoldsOff | gst-plugin/aja/gstajavideosrc.cpp:595-625 | over every run: create refuses exactly between an unlock and the end of the flush, and there the callback queues and counts nothing and releases at once every buffer it is given |
| VideoRuns.StopIsFlushAndStart | gst-plugin/aja/gstajavideosrc.cpp:757-777 | stopping releases every queued buffer once, notifies nothing, makes the signal unknown and keeps the counters: what the end of a flush and a new start do, so what holds over runs with both holds over stops |
| VideoRuns.ReopenedIsFresh | gst-plugin/aja/gstajavideosrc.cpp:527-530 | stopped and opened again, an element is as a new one but for the record of what it did |
| SignalKnowledge.OverwriteKeepsHeard | gst-plugin/aja/gstajavideosrc.cpp:1128-1131 | overwriting the head's change with a rescued one keeps the last change a first or recovered signal |
| SignalKnowledge.RescueKeepsHeard | gst-plugin/aja/gstajavideosrc.cpp:1163-1168 | the same for any split of the queue that leaves an entry |
| SignalKnowledge.KnowledgeHolds | gst-plugin/aja/gstajavideosrc.cpp:1045-1084 | with a queue of two or more and no flush, over every run with any number of new starts: available means that the last change notified or queued is a first or recovered signal, lost that it is a loss |
| SignalKnowledge.ChangesTold | gst-plugin/aja/gstajavideosrc.cpp:1045-1077 | a loss is told exactly if the signal was not lost, a recovery exactly if it was, a first signal exactly if it was unknown |
| SignalKnowledge.DroppedChangesTold | gst-plugin/aja/gstajavideosrc.cpp:1125-1168 | the oldest entry that stays tells a recovery if one was dropped, else a first signal if one was dropped, else what it told before |
| SignalKnowledge.StartTellsNothing | gst-plugin/aja/gstajavideosrc.cpp:791-793 | a new start makes the signal unknown and tells nobody |
| SignalKnowledge.UnknownMeansUntold | gst-plugin/aja/gstajavideosrc.cpp:791-793 | in a run from one start the signal is unknown only as long as nothing has been told |
| SignalKnowledge.SizeOneForgets | gst-plugin/aja/gstajavideosrc.cpp:1164-1168 | with a queue of one no signal change survives an accepted frame |
| SignalKnowledge.FlushKeepsKnowledgeIff | gst-plugin/aja/gstajavideosrc.cpp:615-621 | the end of a flush keeps knowledge exactly when the last change notified agrees with the signal |
| SignalKnowledge.KnowsThroughoutIff | gst-plugin/aja/gstajavideosrc.cpp:610-625 | with a queue of two or more, over every run with flushes and new starts: knowledge survives throughout if and only if each flush ends with the changes notified in agreement with the signal |
| VideoElement.RunRefines | gst-plugin/aja/gstajavideosrc.cpp:1004-1190 | every run of the element is a run of its signal and queue half |
| VideoElement.RunsAreSafe | gst-plugin/aja/gstajavideosrc.cpp:1004-1190 | the safety properties above hold in every run of the element, with new starts and with create in two steps |
| VideoElement.OpeningFrame | gst-plugin/aja/gstajavideosrc.cpp:1093-1104 | a frame that opens a segment is skipped exactly when it comes before the skip time |
| VideoElement.KnowledgeSurvivesIff | gst-plugin/aja/gstajavideosrc.cpp:1163-1168 | signal knowledge survives dropping in all runs without flush, with any number of new starts, if and only if the queue size is at least two |
| VideoElement.RelapseForgotten | gst-plugin/aja/gstajavideosrc.cpp:1164-1168 | the possible run frame, loss, frame after which a queue of one has told nothing |
| VideoElement.KnowsThroughoutIff | gst-plugin/aja/gstajavideosrc.cpp:610-625 | the same for every run of the whole element |
| VideoElement.FlushForgets | gst-plugin/aja/gstajavideosrc.cpp:615-621 | the possible run in which a flush after the first frame leaves the signal available and untold |
| QueueLength.KeepsPace | gst-plugin/aja/gstajavideosrc.cpp:1086-1104 | over every run on a clock that does not fall behind the frame numbers: since each start no more frames are skipped than fit into the skip time, all of them before the first taken, and in all at most that many for each start |
| QueueLength.LengthBoundedOnTimeIff | gst-plugin/aja/gstajavideosrc.cpp:1070-1139 | on such a clock the queue exceeds its size by at most one in all runs with n new starts if and only if n is 0 and the size is at least twice the skip time in frames, rounded up |
| QueueLength.LengthOnTime | gst-plugin/aja/gstajavideosrc.cpp:1070-1139 | in every run on such a clock with n new starts: it exceeds its size by at most that room for each of the n + 1 starts, n, and one |
| QueueLength.LengthInAllRuns | gst-plugin/aja/gstajavideosrc.cpp:1045-1183 | in every run on any clock: at most two entries over the size for each skipped frame, one for each new start, and one |
| QueueLength.LengthBoundedIff | gst-plugin/aja/gstajavideosrc.cpp:1045-1104 | on any clock, even one that stands still: the queue exceeds its size by at most one in all runs with n new starts if and only if skip-first-time and n are 0 |
| QueueLength.FlickerFills | gst-plugin/aja/gstajavideosrc.cpp:1070-1104 | n skipped frames at any distance within the skip time, each followed by a loss, queue two placeholders each |
| QueueLength.StartsAttain | gst-plugin/aja/gstajavideosrc.cpp:791-793 | the run with n new starts in which the queue exceeds its size by n + 1: it fills, the signal is lost, and lost again after each start |
| VideoElement.StreamTimeExact | gst-plugin/aja/gstajavideosrc.cpp:1086-1088 | stream time is within 1 ns of the exact rational time, strictly increases, and by at least a frame duration per frame |
| FrameTimes.StateToldByCalls | gst-plugin/aja/gstajavideosrc.cpp:1063-1094 | over every run: signal is available exactly if the last callback since a start had signal; a segment starts with the first such frame after none, at its number and capture time; the initial skip is measured from the capture time of the first frame since the start |
| FrameTimes.TimesInRuns | gst-plugin/aja/gstajavideosrc.cpp:1086-1115 | the times of every frame of every run: its stream time is exact to within 1 ns, it is skipped if and only if that is within the skip time of the first frame, and its timestamp is what the mapping after it makes of the stream time, or the stream time itself if that is asked for |
| FrameTimes.QueuedInRuns | gst-plugin/aja/gstajavideosrc.cpp:1170-1183 | over every run: the entry queued for a frame carries its times and is marked as first exactly if the callback before had no signal |
| SegmentTimes.NextTimeFollows | gst-plugin/aja/gstajavideosrc.cpp:1086-1115 | a frame that continues a stretch gets a timestamp after what the mapping gave any earlier frame of the segment |
| SegmentTimes.SegmentTimesIncrease | gst-plugin/aja/gstajavideosrc.cpp:1086-1115 | in every run of a started element, whatever is called between the frames: within a signal segment, as long as the mapping does not jump, the frames taken get increasing timestamps |
| VideoElement.CaptureTimeOffByUnits | gst-plugin/aja/gstajavideosrc.cpp:1017-1035 | the capture time is late by 999 ns per microsecond of delay, and right exactly without delay |
| InterruptedCreate.InterruptedCreateMiscounts | gst-plugin/aja/gstajavideosrc.cpp:1396-1423 | the possible run in which create holds the first frame while three others are dropped and reported, and then posts that 2^64 - 2 frames were processed |
| AudioSource.Source.constructor | gst-plugin/aja/gstajaaudiosrc.cpp:219-244 | a new element has an empty queue, position 0 and timer 0 |
| AudioSource.Source.DropOldest | gst-plugin/aja/gstajaaudiosrc.cpp:725-738 | the loop drops exactly the prefix that makes room for one packet and releases its buffers |
| AudioSource.Source.Enqueue | gst-plugin/aja/gstajaaudiosrc.cpp:721-773 | the locked section drops, settles the counters and appends the packet, marked if it ends a burst |
| AudioSource.Source.GotPacket | gst-plugin/aja/gstajaaudiosrc.cpp:663-779 | the whole callback on every path, with the times taken from the video source; a packet within the initial skip, and no other, leaves a reference to the video source behind |
| AudioSource.Source.Timestamp | gst-plugin/aja/gstajaaudiosrc.cpp:845-912 | offset counting, drift detection and resynchronisation change the state as the function the timing lemmas are about says |
| AudioSource.Source.Dequeue | gst-plugin/aja/gstajaaudiosrc.cpp:804-815 | the oldest packet is held; nothing is taken while flushing |
| AudioSource.Source.Deliver | gst-plugin/aja/gstajaaudiosrc.cpp:817-912 | the packet held is passed on, stamped as the lemmas about deliveries describe, with the statistics as the counter stands then, and its capture reference released |
| AudioDelivery.StampsInRuns | gst-plugin/aja/gstajaaudiosrc.cpp:818-912 | over every run the stamps of the delivered packets are those of their own capture times, whole samples and flags |
| AudioDelivery.SamplesExact | gst-plugin/aja/gstajaaudiosrc.cpp:818-819 | the samples of a packet are as many frame sizes as fit into its data |
| AudioDelivery.DeliveredCountSamples | gst-plugin/aja/gstajaaudiosrc.cpp:904-912 | after a resynchronised packet each delivered one gets exactly the time of the samples delivered up to it, whatever the capture times |
| AudioDelivery.DeliveredSeam | gst-plugin/aja/gstajaaudiosrc.cpp:848-856 | the seam after a delivered resynchronised packet is off by between 0 and one sample period plus 1 ns |
| AudioDelivery.FlaggedIsResynced | gst-plugin/aja/gstajaaudiosrc.cpp:823-863 | a first or flagged packet, and the first one delivered after an activation, is always resynchronised and keeps its capture time |
| AudioDelivery.DeliveredResyncOnlyAfterWait | gst-plugin/aja/gstajaaudiosrc.cpp:863-901 | with capture times that do not go back, any other packet is resynchronised only after an unbroken stretch of packets off the count, let through, lasting at least discont-wait |
| AudioDelivery.KeepsOwnTime | gst-plugin/aja/gstajaaudiosrc.cpp:892-903 | a resynchronised packet, and with a threshold of 0 every packet, keeps its capture time and lasts from its own start to its own end |
| AudioDelivery.QueuedInRuns | gst-plugin/aja/gstajaaudiosrc.cpp:718-773 | over every run the packet queued for a buffer carries the times it was given and is marked as first exactly if the callback before had no signal |
| AudioSource.Source.Drain | gst-plugin/aja/gstajaaudiosrc.cpp:477-480 | draining releases every queued buffer once |
| AudioSource.Source.Activate | gst-plugin/aja/gstajaaudiosrc.cpp:599-636 | activation forgets the position and the signal, not the drift timer |
| AudioSource.Source.ClearCounters | gst-plugin/aja/gstajaaudiosrc.cpp:384-387 | a start clears the drop counters |
| AudioSource.Source.Unlock | gst-plugin/aja/gstajaaudiosrc.cpp:453-465 | unlock only sets the flushing flag |
| AudioSource.Source.UnlockStop | gst-plugin/aja/gstajaaudiosrc.cpp:468-484 | the end of a flush drains the queue |
| AudioSource.Source.Stop | gst-plugin/aja/gstajaaudiosrc.cpp:574-578 | stopping drains the queue and forgets the signal |
| AudioRuns.InvHolds | gst-plugin/aja/gstajaaudiosrc.cpp:663-779 | over every run: ledger of accepted packets, ownership of buffers, drop accounting and processed counts |
| AudioRuns.QueueIsMostRecent | gst-plugin/aja/gstajaaudiosrc.cpp:718-778 | over every run the queue holds the latest accepted packets in order and never more than its size, the counters and warnings add up to the packets dropped, and skip_from and skip_to are the ends of the current burst |
| AudioRuns.EachReferenceReleasedOnce | gst-plugin/aja/gstajaaudiosrc.cpp:821-843 | over every run each buffer is owned by exactly one of worker, queue, create, downstream and pool, and each capture reference is given back exactly once |
| AudioRuns.QosRightIff | gst-plugin/aja/gstajaaudiosrc.cpp:829-843 | the same for audio packets |
| AudioRuns.FlushHoldsOff | gst-plugin/aja/gstajaaudiosrc.cpp:453-484 | the same for audio packets |
| AudioRuns.BurstEndFlagged | gst-plugin/aja/gstajaaudiosrc.cpp:718-775 | of two packets accepted one after the other in any run, the second is queued with the drop flag it came with, and with that flag beyond this exactly when the queue was full for the first and is not for the second |
| AudioTiming.TimestampsCountSamples | gst-plugin/aja/gstajaaudiosrc.cpp:904-912 | after a resynchronisation buffer k gets floor(total samples * 10^9 / rate) whatever the capture times, and timestamp plus duration is the next timestamp |
| AudioTiming.SeamAfterResync | gst-plugin/aja/gstajaaudiosrc.cpp:848-856 | the seam after a resynchronised buffer is off by between 0 and one sample period plus 1 ns |
| AudioTiming.RoundingLoss | gst-plugin/aja/gstajaaudiosrc.cpp:848-851 | rounding a time to a whole sample loses less than a sample period and 1 ns |
| AudioTiming.ResyncIff | gst-plugin/aja/gstajaaudiosrc.cpp:863-891 | exactly when an unforced buffer is resynchronised: early or late by the tolerance or more, and discont-wait passed since the timer was set |
| AudioTiming.OutlierIff | gst-plugin/aja/gstajaaudiosrc.cpp:864-877 | when a buffer counts as early or late |
| AudioTiming.OffsetsExact | gst-plugin/aja/gstajaaudiosrc.cpp:848-851 | offsets are whole samples and times whole nanoseconds, both rounded down |
| AudioTiming.ClearTimerMeansOnTrack | gst-plugin/aja/gstajaaudiosrc.cpp:873-890 | the timer is clear after a buffer that was let through exactly when it was within the threshold |
| AudioTiming.TimerHolds | gst-plugin/aja/gstajaaudiosrc.cpp:876-890 | over every run a running timer holds the start of an unbroken stretch of outliers |
| AudioTiming.ResyncOnlyAfterWait | gst-plugin/aja/gstajaaudiosrc.cpp:858-901 | with start times that do not go back, an unforced resynchronisation comes only after an unbroken stretch of outliers of at least discont-wait |
| AudioTiming.EarlierStartResyncsAtOnce | gst-plugin/aja/gstajaaudiosrc.cpp:880-882 | an outlier that starts before the timer is resynchronised at once |
| AudioVideoSync.VideoDecides | gst-plugin/aja/gstajaaudiosrc.cpp:685-710 | audio's computation on the video source's state repeats video's decision and times for the same frame number |
| AudioVideoSync.AudioTimes | gst-plugin/aja/gstajaaudiosrc.cpp:685-716 | the stream time of a packet is exact to within 1 ns in the video source's segment; when it is skipped; and its timestamp is what the video source's mapping makes of it, or the stream time itself if that is asked for |
| AudioVideoSync.StreamTimeInjective | gst-plugin/aja/gstajaaudiosrc.cpp:689-691 | a smaller frame number gives a different stream time, even when the difference wraps |
| AudioVideoSync.AudioAgreesIff | gst-plugin/aja/gstajaaudiosrc.cpp:685-710 | the assertion holds if and only if the streams are not started between the frame's two callbacks; then audio gets video's stream time if and only if the frame number is below 2^32, and with it skip and timestamp |
| AudioVideoSync.SegmentBehindInRuns | gst-plugin/aja/gstajavideosrc.cpp:1082-1083 | in every run the segment started at a frame already seen |
| AudioVideoSync.AudioAgreesInRuns | gst-plugin/aja/gstajaaudiosrc.cpp:685-710 | over every run, for every frame below 2^32 and whatever other threads call between the two callbacks: audio agrees with video, or the assertion fails, exactly as the streams were not, or were, started in between |
| AudioVideoSync.AssertionFails | gst-plugin/aja/gstajaaudiosrc.cpp:687 | the possible run in which the assertion fails |
| CaptureWorker.ACInputWorker | gst-plugin/aja/gstntv2.cpp:1526-1841 | on the readings of every turn it enters the loop does what the recursive function says that the other lemmas are about: it numbers the frame, hands both buffers over or releases them, reports, waits, or ends early exactly when a turn without a frame finds that the last one was asked for |
| CaptureWorker.CounterShortByWraps | gst-plugin/aja/gstntv2.cpp:1528-1538 | the extended drop counter plus the wraps seen equals the true counter |
| CaptureWorker.SinceDelivery | gst-plugin/aja/gstntv2.cpp:1528-1536 | the drop flag at any turn says whether a reading changed since the last delivery |
| CaptureWorker.NextFrameNumber | gst-plugin/aja/gstntv2.cpp:1660-1671 | the frame number goes up by one plus the newly counted drops, processed plus dropped is the frame number plus one, and the flag is set exactly when a reading changed |
| CaptureWorker.FramesNumberedInOrder | gst-plugin/aja/gstntv2.cpp:1660-1664 | any two delivered frames have increasing frame numbers and processed counts |
| CaptureWorker.DeliveredFrame | gst-plugin/aja/gstntv2.cpp:1528-1671 | of every delivered frame: signal exactly if the format was right, the low 32 bits of its number for audio, each buffer with the callback exactly if that takes it, and true processed and dropped counts but for the wraps |
| CaptureWorker.DeliversIff | gst-plugin/aja/gstntv2.cpp:1544-1546 | a turn delivers exactly if a frame is ready, and ends the loop exactly if none is and the last was asked for |
| CapturePath.ReadyFrameShowsSignal | gst-plugin/aja/gstntv2.cpp:1522-1552 | after any run and a turn whose ready frame is taken the video source has signal if the format was right, and has lost it if not |
| CapturePath.ReadyPacketShowsSignal | gst-plugin/aja/gstntv2.cpp:1574 | after any run and such a turn the audio source has signal exactly if the format was right |
| CapturePath.WorkerFeedsElement | gst-plugin/aja/gstntv2.cpp:1660-1815 | whatever the device reports, what the worker makes of it, with refused frames, new starts and the calls of other threads between its turns, is a possible run of the video element, so the safety of those runs holds |
| CapturePath.WorkerFeedsAudio | gst-plugin/aja/gstntv2.cpp:1661-1815 | the same for the audio element |
| CaptureWorker.LossReportedIff | gst-plugin/aja/gstntv2.cpp:1820-1841 | a missing frame is reported if and only if the last one was not asked for and the format is wrong or 32 turns were waited through since the last frame |
| Shutdown.InvHolds | gst-plugin/aja/gstntv2.cpp:1222-1270 | if Run is called only without a live worker, pools exist whenever a worker is alive and Quit knows that worker |
| Shutdown.QuitLeavesNothing | gst-plugin/aja/gstntv2.cpp:397-431 | when Quit returns no worker, pool or thread is left, the lock is free and no worker can make a step |
| Shutdown.SecondQuitChangesNothing | gst-plugin/aja/gstntv2.cpp:400-422 | after every guarded run that ends with the return of Quit, a second Quit leads back to the same state |
| Shutdown.RunTracksIff | gst-plugin/aja/gstntv2.cpp:1222-1256 | Run keeps every worker known to Quit if and only if none was alive |
| Shutdown.OrphanOutlivesQuit | gst-plugin/aja/gstajavideosrc.cpp:785-812 | the run in which a worker survives Quit without pools |
| Shutdown.EffectAgrees | gst-plugin/aja/gstntv2.cpp:1637-1647 | every step of a worker after a whole turn since the request carries the request or has set its flags |
| Shutdown.FlagsSetWithinTwoTurns | gst-plugin/aja/gstntv2.cpp:1795-1820 | both last-frame flags are set after the turn under way and one whole turn |
| Shutdown.WorkerEndsSoon | gst-plugin/aja/gstntv2.cpp:1315-1316 | once globalQuit is set every step of a worker brings it closer to its end, at most six steps away |
| Shutdown.StuckIff | gst-plugin/aja/gstajavideosrc.cpp:761-767 | neither Quit nor its worker can make a step if and only if Quit, called under the input lock, waits for a worker that waits for that lock; then nobody else can either |
| Shutdown.QuitUnderLockCanHangIff | gst-plugin/aja/gstajaaudiosrc.cpp:936-942 | in every state of guarded runs: a Quit under the lock can hang if and only if its worker waits for the lock already, or audio is enabled and the worker is not in the branch without a frame |
| Shutdown.EveryStepLowers | gst-plugin/aja/gstntv2.cpp:1260-1270 | once globalQuit is set, every step of Quit or its worker lowers a measure of at most eight, and what others do leaves it alone |
| Shutdown.ReturnsWithinEightSteps | gst-plugin/aja/gstntv2.cpp:1260-1270 | over every run from there: at most eight steps of Quit and its worker in all, and as long as Quit has not returned one of them can make a step unless they are deadlocked |
| Shutdown.QuitReturnsIff | gst-plugin/aja/gstntv2.cpp:397-431 | in every state of guarded runs: Quit can return from every point it may come to if and only if it does not hold the lock or its worker cannot come to wait for it |
| Shutdown.QuitWithoutLockReturns | gst-plugin/aja/gstntv2.cpp:397-431 | a Quit that is not called under the lock returns: it never hangs, its wait ends by the time limit, at most eight steps are left after that, and when it has returned everything is stopped |
| Shutdown.StopUnderLockHangs | gst-plugin/aja/gstajaaudiosrc.cpp:680-683 | the run in which stopping video before audio hangs |
| Shutdown.AudioStoppedFirstHangs | gst-plugin/aja/gstajaaudiosrc.cpp:567-572 | the run in which audio is stopped first and shutdown hangs all the same, because the worker had passed the test whether audio is enabled |
| BlockAllocator.Allocator.constructor | gst-plugin/aja/gstaja.cpp:1093-1119 | a new allocator holds and has locked the preallocated blocks |
| BlockAllocator.Allocator.NewBlock | gst-plugin/aja/gstaja.cpp:931-960 | the oldest free block is reused, else the system's block is counted and locked |
| BlockAllocator.FreeBlockIsReused | gst-plugin/aja/gstaja.cpp:942-950 | if a block is free an allocation gives the one free the longest and neither locks nor counts another |
| BlockAllocator.GivenUpBlockWaitsIff | gst-plugin/aja/gstaja.cpp:1033-1043 | a block given up waits at the end of the free list, locked, unless eight wait and more than the floor are allocated |
| BlockAllocator.AllocatesNoMoreThanNeeded | gst-plugin/aja/gstaja.cpp:931-1047 | over every run no more blocks are allocated than were preallocated or once live at the same time |
| BlockAllocator.Allocator.Free | gst-plugin/aja/gstaja.cpp:1025-1047 | a memory without a parent gives its block to the list or to the system; one with a parent changes nothing |
| BlockAllocator.Allocator.Finalize | gst-plugin/aja/gstaja.cpp:1057-1061 | finalizing unlocks the free blocks in order |
| BlockAllocator.AllocatedKeepsInv | gst-plugin/aja/gstaja.cpp:942-954 | an allocation gives a block that was not live and keeps the invariant |
| BlockAllocator.FreedKeepsInv | gst-plugin/aja/gstaja.cpp:1033-1043 | a free keeps the invariant: counts, floor, bound and locks |
| BlockAllocator.InvHolds | gst-plugin/aja/gstaja.cpp:931-1047 | over every run of allocations, shares and releases: allocated = free + live, at least the floor; free list duplicate-free, disjoint from live and at most max(8, preallocated); exactly the held blocks are locked, each once; live are the blocks of the memories referred to |
| BlockAllocator.LiveShareKeepsBlock | gst-plugin/aja/gstaja.cpp:993-1012 | over every run, as long as a share lives its block is live and locked and not on the free list |
| BlockAllocator.LastReferenceFrees | gst-plugin/aja/gstaja.cpp:1025-1047 | a block is given up exactly with the last reference to its root, the user's or a share's |
| BlockAllocator.FinalizeUnlocks | gst-plugin/aja/gstaja.cpp:1049-1064 | after finalizing only live blocks are locked, and every lock had at most one unlock |
| SharedMemory.Copy | gst-plugin/aja/gstaja.cpp:974-991 | the loop copies byte for byte what lies at the summed offset; the result is the bytes of the corresponding share whenever that lies inside the memory |
| SharedMemory.ShareParentIsRoot | gst-plugin/aja/gstaja.cpp:999-1001 | the parent of a share is always the root |
| SharedMemory.ShareOfShare | gst-plugin/aja/gstaja.cpp:1003-1009 | sharing a share is one share with summed offset |
| SharedMemory.ShareIsSlice | gst-plugin/aja/gstaja.cpp:1006-1009 | the bytes of a share are a slice of the bytes it was cut from |
| SharedMemory.CopyMatchesShareIff | gst-plugin/aja/gstaja.cpp:974-1012 | default sizes of copy and share agree if and only if the offset lies inside the memory, negative offsets included |
| HardwareClock.Clock.GetInternalTime | gst-plugin/aja/gstaja.cpp:684-743 | one reading, with the clock stopped, the counter unreadable, or a restart pending |
| HardwareClock.HardwareTimeExact | gst-plugin/aja/gstntv2.cpp:1924-1932 | the time of a counter value is exact to within 1 ns, and 48000 samples are a second |
| HardwareClock.TimeNeverDecreases | gst-plugin/aja/gstaja.cpp:718-725 | over every run reported time never decreases, whatever the hardware does |
| HardwareClock.RestartContinuesIff | gst-plugin/aja/gstaja.cpp:713-720 | in any state, after a restart time continues from the last time if and only if the hardware has come that far |
| HardwareClock.RestartGetsInStep | gst-plugin/aja/gstaja.cpp:705-720 | a restart that late puts the clock in step with the hardware |
| HardwareClock.StaysInStep | gst-plugin/aja/gstaja.cpp:708-725 | once in step, a reading adds exactly what the hardware advanced, or repeats the last time if a restart was pending, without underflow |
| HardwareClock.RunsKeepTime | gst-plugin/aja/gstaja.cpp:692-727 | over every run of readings, restarts and stops of a new clock whose hardware does not go back, reported time is exactly the running time: continuous across restarts, advancing with the hardware in between |
| HardwareClock.ReadingWrapsIff | gst-plugin/aja/gstaja.cpp:718-720 | exactly when a reading is right in spite of the unsigned subtraction |
| HardwareClock.CounterWrapLeapsIff | gst-plugin/aja/gstntv2.cpp:1924-1932 | for every state in step, when the 32-bit sample counter wraps the next reading leaps to the end of the 64-bit range if and only if restarts have skipped more than the last time and the new reading show; otherwise time stands still |
| HardwareClock.CounterWrapLeaps | gst-plugin/aja/gstntv2.cpp:1924-1932 | the run of a new clock in which that happens |
| Routing.SetupRouting | gst-plugin/aja/gstntv2.cpp:743-827 | the loop over the old connections removes exactly the conflicting ones, and the new ones are added |
| Routing.SetupConnects | gst-plugin/aja/gstntv2.cpp:743-827 | for any prior routing the frame buffer shows the channel's input, through the converter exactly when RGB is wanted, and the input feeds nothing else but the loop-through |
| Routing.SetupLeaves | gst-plugin/aja/gstntv2.cpp:743-827 | nothing is left at the channel's quad-link partners, nor at its converter unless that is used, and every other old connection stays that was not fed by its input |
| Routing.RoutedAt | gst-plugin/aja/gstntv2.cpp:743-827 | set-up at each crosspoint: its own connections win, conflicting ones go, all others stay |
| Routing.SetupIdempotent | gst-plugin/aja/gstntv2.cpp:743-827 | set-up twice is set-up once |
| Routing.SetupsCommute | gst-plugin/aja/gstntv2.cpp:194-196 | set-ups of two channels give the same routing in either order |
| Routing.SetupKeepsOthers | gst-plugin/aja/gstntv2.cpp:743-827 | setting up another channel leaves what a channel shows alone |

## Left out

- Widths: times, offsets and frame counts are unbounded, so results beyond 2^64 ns (584 years), and `skipped_last` beyond 2^32 frames in one burst, are not modelled. Unsigned subtraction, the 32-bit counters and the 32-bit audio frame number are.
- Concurrency inside a callback, or inside either half of create: each is one step, and in `CapturePath` so is a turn of the worker; only the shutdown protocol is interleaved more finely.
- Two workers at once feeding one element: `Shutdown` shows how they come about; the runs of the elements have one worker at a time.
- Clearing the drop counters and stopping inside a run: the runs begin with cleared counters and an empty queue, and a new start keeps both, as going from PAUSED to PLAYING does.
- Blocking: where `create` would wait for a frame, the model's `Dequeue` returns `Waiting`.
- The regression itself and the floating-point frame rate: the regression may return any mapping with a positive denominator, and frames per second is the exact ceiling.
- The frame rate: one constant rate stands for both the negotiated caps and the input's mode; before caps are negotiated the source's rate is 0.
- The rest of `create`: caps negotiation, buffer duration and flags, timecode, closed captions, reference timestamp metadata. For audio, `dataSize / frameSize` stands for the sample count.
- Entries cleared after the device object is gone: they would not be released.
- Buffer pools: acquiring always succeeds and gives a buffer nobody holds; resizing and the qdata flags are not modelled.
- `ACInputWorker`: DMA transfer, formats, VPID, timecode index, NVMM, and `mLastFrameInput`. Its last-frame flags and the loop test are in `Shutdown`.
- `Shutdown`: Quit's 3 s timeout may fire at any time; pools replaced by a second Run are not tracked; only the input lock is modelled.
- `Init`, quad-link, TSI, HDMI, analog and passthrough routing, VANC, audio set-up, AutoCirculate frame ranges.
- `BlockAllocator`: failing system allocations, and the assertion that every block has the allocator's size.
- `HardwareClock`: nothing in the repository creates the record behind the clock or requests a restart; the model starts it empty and lets a restart be requested at any time.
- The mode table, properties, the device provider and the sinks.
