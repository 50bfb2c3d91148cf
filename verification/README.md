# tsastat: verified model of its accounting

tsastat turns streams of thread observations into fixed-length per-thread reports. This project models
the parts whose results must stay exact across window boundaries, late data, thread death and reuse of
thread numbers, and proves what they promise over every run:

- **Event timeline** (`EventTimeline`, `EventAccumulator`): what `Observe` and `Advance` do to tracks and
  windows, as functions on the state, and the class that does it in place with its loops. `Lifetimes`,
  `EventLedger`, `EventInvariant`, `EventObserveStep` and `EventAdvanceStep` keep a lifetime and a ledger beside
  every run; `EventTheorems` and `EventAccounting` state what follows for every reachable state, `EventRevival`
  says when events after a death distort it, and `EventSchedule` what the collector's own schedule adds.
  `EventSeeds` and `ScannedThreads` follow the threads of the initial scan, `EventOutcomes` tells each event's effect
  by its fields, and `EventWakeups` reads latencies off the accepted events alone.
- **Snapshot accumulator** (`SampleTimeline`, `Accumulator`): the same for samples, midpoints, counter
  shares and the watermark. `SampleOrder`, `SampleRuns`, `SampleGauges`, `SampleThreads`, `Conservation`,
  `Uncertainty`, `Midpoints`, `Restarts`, `SampleCoverage`, `ScanCounts`, `SamplePeaks`, `SampleLabels`, `SampleNames`,
  `SampleReports` and `ReportSummary` hold its theorems; `Proportion` holds the 128-by-64-bit arithmetic.
- **Collector** (`Flush`, `Merge`, `Hybrid`, `TidReuse`): the flush protocol between the reader goroutine and the
  collector as steps of a system, the join of an event report with an auxiliary report, the two timelines run in
  lock-step, and one run in which the join goes wrong.
- **Edges** (`SnapshotMerge`, `Netlink`, `TaskstatsReply`, `Text`, `ProcStat`, `StartTime`, `StableRead`): scans, wire
  formats and identity.

`Model`, `Windows`, `Snapshots`, `RowOrder` and `RowSort` hold what several of these share; `Machine` the machine
integers and `Wrappers` the type of results that may be missing.

Time is an integer number of nanoseconds counted from Go's zero `time.Time`, so "is zero" is `== 0`. The
iteration of a Go map is a choice of any remaining key; lemmas show that the choice does not matter. A
class method that changes state equates its new state with a function of the old one, and the theorems are
about runs of those functions.

Four results about the code itself are worth knowing:

- A dead thread accrues time again when an event is applied to it: for the span between the end of its books,
  or the start of the next window when that is later, and the event. The replayed timeline is met exactly when
  no event is applied to a dead track after both of them (`StepCondition` for one event, `RefinementCondition`
  for a whole run, `EventAfterDeath` for the failing family); `WakeupAfterExitRevives` is a run that reaches
  such an event.
- `mergeHybridReport` is greedy; it is a join exactly when partners are unambiguous both ways (`GreedyIsJoin`).
  On the collector's schedule one lifetime never leaves two rows in a window (`OneRowEach`), but a thread number
  reused within one clock tick does, and then all the delays go to the older thread's row
  (`ReuseWithinTickBreaksJoin`, and `DelaysGoToTheOlder` for a run of the hybrid loop).
- `buildNetlinkRequest` truncates the attribute length to 16 bits; the attribute parses back exactly when its
  length fits (`RequestRoundTrip`), and one of 2^16 bytes cannot be parsed at all (`OverlongAttributeIsLost`).
- `parseBoottimeOffset` accepts exactly the sums that fit an `int64` except those of the least representable
  second (`OffsetExact`), of which the least `int64` is one (`LeastOffsetRefused`).

## Model

| member | source | states |
|---|---|---|
| EventAccumulatorClass.EventAccumulator.constructor | internal/collector/event_accumulator.go:50-79 | each thread number of the initial scan has a track with the process, identity, name and off-CPU state of its last sample, alive since the origin, and there is no other track; no window is pending and none closed |
| EventSeeds.ScanSeeds | internal/collector/event_accumulator.go:60-77 | the tracks of a scan, field by field: the last sample of each thread number, nothing pending, seeded at the sample's time, or at the origin when it has none |
| EventSeeds.SeedFields | internal/collector/event_accumulator.go:402-420 | off-CPU states are taken over one by one, a zombie counts as dead, and a running or unknown thread as unknown |
| ScannedThreads.ScannedLives | internal/collector/event_accumulator.go:60-77 | after any run, each thread number of the initial scan has a lifetime that began at the origin in the state of its last sample |
| ScannedThreads.ScannedThreadCovered | internal/collector/event_accumulator.go:179-185 | that lifetime is charged exactly one interval in each window that ends by the time it was last carried to, when nothing follows its death |
| ScannedThreads.ScannedThreadReported | internal/collector/collector.go:115-130 | in the collector's runs, the report of each such window has a row of that thread number that totals exactly the interval |
| ScannedThreads.QuietThreadCharged | internal/collector/event_accumulator.go:171-220 | a thread of the initial scan that no event is about is charged, in every emitted window, exactly the interval, in the state its last sample showed |
| EventAccumulatorClass.EventAccumulator.Observe | internal/collector/event_accumulator.go:95-162 | the whole new state is the one the timeline specification gives for the event: judged late, raced, early, before its seed or applied; the rows named EventOutcomes and EventWakeups tell it by fields |
| EventAccumulatorClass.EventAccumulator.Settle | internal/collector/event_accumulator.go:139-162 | tracks and windows once the event's track is known, on each of the five branches |
| EventAccumulatorClass.EventAccumulator.Accept | internal/collector/event_accumulator.go:157-161 | the span since the last event is booked, the event counted and the track moved to its time |
| EventAccumulatorClass.EventAccumulator.AddTrackSegment | internal/collector/event_accumulator.go:270-302 | walking the windows boundary by boundary books to each open window exactly its overlap with the span, and to no other; the duration that a state is charged to is that of RowDurations |
| EventAccumulatorClass.EventAccumulator.Advance | internal/collector/event_accumulator.go:171-220 | the new state and the reports are those of cutting every live track at the watermark and closing the windows that end by it |
| EventAccumulatorClass.EventAccumulator.CutTracks | internal/collector/event_accumulator.go:179-185 | whatever order the track map is visited in, the same windows and tracks result |
| EventAccumulatorClass.EventAccumulator.CloseWindows | internal/collector/event_accumulator.go:187-219 | one report for each window from the next one to the last that ends by the watermark; those windows and no others leave the pending map |
| EventAccumulatorClass.EventAccumulator.MakeReport | internal/collector/event_accumulator.go:189-215 | the report of the next window: its bounds, rows in identity order and quality |
| EventTimeline.BooksCommute | internal/collector/event_accumulator.go:179-185 | segments of different threads can be booked in either order |
| EventTimeline.AnyTrackFirst | internal/collector/event_accumulator.go:179-185 | the loop over the tracks may take any track first |
| EventTimeline.ObserveFrame | internal/collector/event_accumulator.go:95-162 | an event leaves the grid, the next window and the watermark alone, and every track but its own |
| EventTimeline.AdvanceRaisesWatermark | internal/collector/event_accumulator.go:171-178 | the watermark never falls |
| EventObserveStep.ObserveKeeps | internal/collector/event_accumulator.go:95-162 | observing any event keeps the invariant that ties lifetimes, segments, rows, counters, latency and reports together |
| EventObserveStep.AppliedIsOpen | internal/collector/event_accumulator.go:152-158 | an applied event never falls into a window already emitted |
| EventOutcomes.NewLifeWhen | internal/collector/event_accumulator.go:104-123 | a lifetime begins exactly for an unknown thread number, or one whose known ticks or nanoseconds the event contradicts; otherwise the event belongs to the lifetime at hand |
| EventOutcomes.JoinsWhen | internal/collector/event_accumulator.go:139-155 | an event joins its lifetime's deeds if and only if it is not older than the seed, the last event and, from the origin on, the time the track was carried to |
| EventOutcomes.FirstJoins | internal/collector/event_accumulator.go:110-123 | a new lifetime starts with its event, in an unknown state, at the event or at a later origin |
| EventOutcomes.TrackLearns | internal/collector/event_accumulator.go:111-136 | a new track has the event's process, identity and name; a known one takes over what the event knows and keeps the rest |
| EventOutcomes.RacesCounted | internal/collector/event_accumulator.go:309-318 | a window's races grow by one for a contradicted start time, in the event's window or the first open one, and for an event before the origin that was overtaken, in the first open one; nothing else counts |
| EventOutcomes.AppliedRowNamed | internal/collector/event_accumulator.go:320-343 | an applied event leaves in its window a row of its thread's identity and name, of the process the row started with |
| EventAdvanceStep.AdvanceKeeps | internal/collector/event_accumulator.go:171-220 | advancing to any watermark keeps the same invariant |
| EventAdvanceStep.CutAllKeeps | internal/collector/event_accumulator.go:179-185 | cutting the tracks, in whatever order, keeps the invariant |
| EventAdvanceStep.CutAllCarries | internal/collector/event_accumulator.go:179-185 | cutting carries every live track to the watermark and changes no other, and nothing besides tracks and windows |
| EventOutcomes.ClosesThrough | internal/collector/event_accumulator.go:187-219 | after advancing to a watermark at or after the origin, exactly the windows that end by it have been emitted |
| EventOutcomes.ReportsTell | internal/collector/event_accumulator.go:192-208 | each report names the method, the losses it was told and the calibration, and admits missed changes if and only if it counts a loss, a late event, an incomplete wakeup or a race |
| EventTheorems.TimelineRefinement | internal/collector/event_accumulator.go:270-302 | in every reachable state, window and scheduler state, the time booked to a lifetime is the measure of its replayed events there, plus what was booked after its death; without an event after death it is the measure alone |
| EventRevival.StepCondition | internal/collector/event_accumulator.go:152-158 | an applied event books time to a dead thread if and only if its track is dead and it lies after both the end of that track's books and the start of the next window |
| EventRevival.LifetimeCondition | internal/collector/event_accumulator.go:95-162 | one lifetime's books equal its replayed timeline, in every window and state, if and only if no event of the run about it met that guard when it was observed |
| EventRevival.RefinementCondition | internal/collector/event_accumulator.go:95-162 | the books of every lifetime of a run equal its replayed timeline if and only if no event of the run met that guard |
| EventRevival.EventAfterDeath | internal/collector/event_accumulator.go:231-241 | after any event that meets the guard, in any reachable state, more is booked to the lifetime than its timeline holds, in a window it names |
| EventRevival.WakeupAfterExitRevives | internal/collector/event_accumulator.go:222-242 | a reachable state and a wakeup that meets the guard: an exit, the close of its window, and a wakeup after it |
| EventTheorems.RowsAreTheBooks | internal/collector/event_accumulator.go:320-343 | each row holds, state by state, what was booked under its identity, and its parts add up |
| EventTheorems.RowDurations | internal/collector/event_accumulator.go:277-300 | for every row of every reachable state: sleeping, uninterruptible, stopped, tracing stop, idle, dead and unknown durations are the books of the scheduler state of that name, running is those of on-CPU and runnable together, and zombie is zero |
| EventTheorems.ReportsAreTheWindows | internal/collector/event_accumulator.go:187-219 | reports are consecutive, show what their window held when it closed, and no pending window is older than the next one |
| EventTheorems.RowShowsTimeline | internal/collector/event_accumulator.go:270-302 | a row written by one whole lifetime shows that lifetime's replayed timeline |
| EventTheorems.ExactCoverage | internal/collector/event_accumulator.go:179-185 | a lifetime gets exactly one interval of time in each window, emitted or pending, that it lived through, whether it died later, lost its thread number or lives |
| EventTheorems.LiveThreadLivedThrough | internal/collector/event_accumulator.go:179-187 | a thread that is alive has lived through every window emitted since its birth |
| EventTheorems.RowTotal | internal/collector/event_accumulator.go:277-300 | a row's total is the time booked to it over all scheduler states |
| EventTheorems.RowCoverage | internal/collector/event_accumulator.go:187-219 | a row that is the one row of a lifetime which lived through an emitted window has a total of exactly the interval, equal to the sum of its durations, with on-CPU plus run-queue time equal to running time |
| EventSchedule.OneRowEach | internal/collector/event_accumulator.go:107-137 | when windows are closed at their boundaries and events carry complete, consistent identities, two segments in one window share a row if and only if they share a lifetime |
| EventSchedule.SoleOwned | internal/collector/collector.go:115-130 | in every run of the collector, a segment's row and its lifetime have the same books in each window it reaches |
| EventSchedule.CollectedRowShowsTimeline | internal/collector/collector.go:115-130 | in every run of the collector, one row of each window where a lifetime has time shows its whole replayed timeline there |
| EventSchedule.CollectedRowCoverage | internal/collector/collector.go:115-130 | in every run of the collector, each lifetime has, in each emitted window it lived through, a row of its own whose total is exactly the interval |
| EventAccounting.PendingWakeup | internal/collector/event_accumulator.go:222-242 | a pending wakeup means the thread is runnable, and lies between the origin and its last event |
| EventAccounting.QueueTimeMeasured | internal/collector/event_accumulator.go:283-285 | run-queue time over the first windows is the measure of the runnable phases of the replayed lifetime |
| EventAccounting.LatencyIsQueueTime | internal/collector/event_accumulator.go:255-267 | wakeup latency accumulated over a run, pending wait included, never exceeds the run-queue wait |
| EventWakeups.CountersAreTheDeeds | internal/collector/event_accumulator.go:244-268 | in every reachable state the count, sum and maximum of a lifetime's latencies are those of its waits, read off its accepted events alone: from the last wakeup off CPU at or after the origin to a switch-in with no switch between; incomplete wakeups, events and timeslices likewise, and the track holds the wakeup still pending |
| EventWakeups.WaitsAreQueueTime | internal/collector/event_accumulator.go:255-267 | each wait lasts exactly as long as the replayed lifetime is runnable in it, and waits follow one another |
| EventWakeups.LatencyIsAllQueueTime | internal/collector/event_accumulator.go:255-267 | when every stay in the run queue starts with one wakeup and ends in a switch-in, the latencies, pending one included, are all of the run-queue time booked |
| EventAccounting.EveryEventOnce | internal/collector/event_accumulator.go:244-254 | of the events of any run, each is counted once, as applied or late in one window, or is uncounted; the windows' own counters are those counts |
| EventAccounting.UncountedMeans | internal/collector/event_accumulator.go:96-155 | an event is uncounted if and only if it is malformed or precedes its track's seed or the origin, and late if and only if it precedes the watermark or its track's last step |
| EventAccounting.ReportCountsAddUp | internal/collector/event_accumulator.go:192-208 | a report's event and incomplete-wakeup counts are the sums over its rows and over the events of its window; its late count is that of its window |
| AccumulatorClass.Accumulator.constructor | internal/collector/accumulator.go:55-61 | an accumulator whose origin is still open |
| AccumulatorClass.Accumulator.At | internal/collector/accumulator.go:66-71 | an accumulator aligned with another timeline |
| AccumulatorClass.Accumulator.Observe | internal/collector/accumulator.go:73-127 | the whole new state and the reports are those the sample specification gives for the normalised scan; the rows named Midpoints, Restarts, ScanCounts, SamplePeaks, SampleLabels, SampleNames and SampleReports tell it by fields |
| AccumulatorClass.Accumulator.RecordScan | internal/collector/accumulator.go:363-383 | the scan is counted once in each open window it spans |
| AccumulatorClass.Accumulator.ScanWindowIndices | internal/collector/accumulator.go:385-401 | those windows in ascending order: all that overlap the scan, or the one of its end when none does |
| AccumulatorClass.Accumulator.BookPrevious | internal/collector/accumulator.go:96-115 | whatever order the previous samples are visited in, the same windows result, and the least end seen |
| AccumulatorClass.Accumulator.HoldForNew | internal/collector/accumulator.go:116-124 | the watermark is the least of all ends, over threads of either scan |
| AccumulatorClass.Accumulator.ForEachWindow | internal/collector/accumulator.go:403-423 | walking the windows boundary by boundary visits each open window the span reaches, once, with its overlap |
| AccumulatorClass.Accumulator.FinalizeThrough | internal/collector/accumulator.go:425-488 | one report for each window that ends by the watermark, none before the origin; those windows leave the pending map |
| AccumulatorClass.Accumulator.MakeReport | internal/collector/accumulator.go:436-482 | the report of the next window, with its counters summarised over its rows |
| SampleOrder.AppliesCommute | internal/collector/accumulator.go:96-115 | visits on behalf of different threads can be made in either order |
| SampleOrder.AnySampleFirst | internal/collector/accumulator.go:96-115 | the loop over the previous samples may take any sample first |
| SampleRuns.EmittedWindowsAreFinal | internal/collector/accumulator.go:403-423 | under sequential scans the skip of emitted windows discards nothing: booking without it gives the same windows |
| SampleRuns.CarriesOver | internal/collector/accumulator.go:425-430 | after a scan, every sample still waiting lies at or after the start of the next window |
| SampleRuns.ScanKeeps | internal/collector/accumulator.go:73-127 | a bracketed scan keeps reports, closed windows and pending windows aligned, with none pending below the next one |
| SampleRuns.RunSettles | internal/collector/accumulator.go:73-127 | that alignment holds after any run of sequential scans |
| SampleGauges.ScanGains | internal/collector/accumulator.go:94-127 | a scan adds to a thread's reading in a window, emitted or pending, exactly what its own gap contributes there |
| SampleThreads.NeverSeen | internal/collector/accumulator.go:94-127 | until the scan after the one that first sees a thread, none of its rows holds anything |
| SampleThreads.UntimedSample | internal/collector/accumulator.go:97-103 | a sample without a time of its own ends its thread's gap with the scan |
| ScanCounts.LooksCounted | internal/collector/accumulator.go:348-383 | in every window of every run: how many scans reached it, how long the longest took, what the last one called its method, and how many samples of a thread were taken in it |
| SamplePeaks.PeakOfTwice | internal/collector/accumulator.go:199-213 | the longest gap between samples, schedstat readings and taskstats readings that a row admits grows to the new gap if it is longer, reaches the window, and both scans have the readings |
| SamplePeaks.PeakOfLast | internal/collector/accumulator.go:297-303 | a disappearance raises the longest gap between samples, up to the scan that misses the thread, and no other |
| SamplePeaks.WindowGapIsGreatest | internal/collector/accumulator.go:319-331 | a window's longest gap is the greatest of the one before and of the gaps, over all threads, that the scan closes and that reach it |
| SampleLabels.LabelsFollow | internal/collector/accumulator.go:191-289 | a row names schedstat once its readings go on, quotes the taskstats version and switches of the newer sample once some resource goes on or restarts, and covers exactly the resources that went on |
| SampleNames.RowsCalled | internal/collector/accumulator.go:490-512 | when all samples of a thread carry one process and one name, so does each of its rows |
| SampleNames.RowRenamed | internal/collector/accumulator.go:508-510 | a scan leaves the row of each open window that a thread's gap reaches with the name that both its samples carry, whatever name it had before |
| SampleReports.ReportsAreTheWindows | internal/collector/accumulator.go:436-486 | in every run, report after report shows its window as it closed: bounds, rows in identity order, scan quality, and counters summed over its own rows; each row names its thread and the window's bounds |
| SampleReports.ClosesThrough | internal/collector/accumulator.go:95-126 | after a scan, exactly the windows have closed that end by the least of the scan's end, the times of its samples and, for a thread it misses, its start |
| Proportion.MultiplyDivide | internal/collector/accumulator.go:636-643 | on all of uint64 with numerator at most denominator the result is the floor of the exact quotient and never exceeds the value |
| Proportion.HighFits | internal/collector/accumulator.go:640-642 | the high word of the product is below the divisor, so the 128-by-64 division never traps |
| Proportion.Monotone | internal/collector/accumulator.go:266-279 | a later offset never gets a smaller share, so the subtraction of two shares does not underflow |
| Proportion.PieceError | internal/collector/accumulator.go:226-237 | the difference of two shares is within one unit of its exact part |
| Proportion.PieceIsFair | internal/collector/accumulator.go:191-224 | a window's piece of a delta is within one unit of its wall-time share |
| Proportion.PiecesTelescope | internal/collector/accumulator.go:403-423 | the pieces of the windows add up to the share of the whole span: nothing lost, nothing twice |
| Proportion.NanosecondsDuration | internal/collector/accumulator.go:645-651 | exact up to the largest duration, which no result exceeds |
| Conservation.GapGain | internal/collector/accumulator.go:129-170 | of everything a gap books, a counter gains exactly its delta's piece in each window |
| Conservation.CountersConserved | internal/collector/accumulator.go:226-289 | for a thread in some successive scans, whatever scans surround them, and a counter whose readings are all present and never go down: over those scans the windows gain last reading minus first reading minus the shares before the origin |
| Conservation.WholeLifeConserved | internal/collector/accumulator.go:226-308 | for a thread that those scans see and no others do, all windows together hold just that after any later scan, the one that misses it included |
| Conservation.OnlyFirstGapLoses | internal/collector/accumulator.go:81-92 | with advancing samples that reach the origin by the second one, only the first gap loses a share to it |
| Restarts.SchedstatTallies | internal/collector/accumulator.go:239-295 | in each window a gap reaches: a pair over the time of the overlap when all three readings go on, one reset and no counter gain when any goes down, nothing when one scan lacks them |
| Restarts.DelayTallies | internal/collector/accumulator.go:149-224 | the same for taskstats, resource by resource: as many resets as resources went down, a pair over the time of the overlap when some resource went on, no gain for those that did not |
| Restarts.TransitionsCounted | internal/collector/accumulator.go:333-346 | one detected transition in each window that a gap with two states reaches, none otherwise |
| Restarts.RestartsReported | internal/collector/accumulator.go:94-127 | through any run, a scan adds just those tallies to the rows of a thread that it and the scan before saw |
| Uncertainty.GapError | internal/collector/accumulator.go:129-147 | for one gap, in every window and state, booked time differs from the true time by at most the doubt it adds to the row |
| Uncertainty.BoundIsTight | internal/collector/accumulator.go:333-346 | some instant of the hidden transition attains that bound |
| Midpoints.ChangeHalves | internal/collector/accumulator.go:129-147 | in a window that holds the whole gap the old state gets half of it, rounded down, the new state the rest, and the rest is the doubt |
| Midpoints.MidpointIsBest | internal/collector/accumulator.go:617-619 | wherever else in the gap the change were put, some truth would leave an error of at least the doubt that the midpoint is booked with |
| Midpoints.LossSpends | internal/collector/accumulator.go:297-308 | a vanished thread is charged, in every window, its last state up to the middle of the gap and unknown from there on |
| Midpoints.LossHalves | internal/collector/accumulator.go:297-308 | in a window that holds the whole gap these are its two halves, and the later one is the doubt |
| Midpoints.ChangeReported | internal/collector/accumulator.go:94-127 | through any run, a scan that finds a thread in another state adds those halves and that doubt to its row |
| Midpoints.LossReported | internal/collector/accumulator.go:107-111 | through any run, a scan that misses a thread adds half of the time up to its start to the last state and the rest to unknown |
| Uncertainty.ErrorIsBounded | internal/collector/accumulator.go:310-346 | for a thread in some successive scans, whatever scans surround them, what each window gains over them in each state differs from the true time by at most the transition uncertainty it gains |
| SampleCoverage.DurationsMakeTotal | internal/collector/accumulator.go:310-317 | in every window of every run a sampled row's total is the sum of its durations |
| SampleCoverage.GapCovered | internal/collector/accumulator.go:129-147 | a gap's time is handed out whole, per window, whether or not it is split at its midpoint |
| SampleCoverage.LossCovered | internal/collector/accumulator.go:297-308 | a vanished thread is charged exactly up to the scan that misses it |
| SampleCoverage.SampledCoverage | internal/collector/accumulator.go:94-127 | a thread in some successive scans, whatever scans surround them, gains over them, in every window, exactly the wall time between its first and last sample that falls there |
| SampleCoverage.CoverageEnds | internal/collector/accumulator.go:297-308 | a scan without a thread charges it, in every window, exactly up to that scan, or nothing if the scan before had missed it already |
| ReportSummary.SummaryCounts | internal/collector/accumulator.go:450-475 | a report counts its delay-bearing rows and their resets, and calls accounting enabled if and only if some row knows and all that know agree |
| ReportSummary.SummaryVersions | internal/collector/accumulator.go:457-466 | its versions are the least and the greatest among its delay-bearing rows, attained by some row |
| ReportSummary.SchedstatCounts | internal/collector/accumulator.go:450-455 | a report counts its rows with a schedstat pair and the schedstat resets of all its rows |
| RowOrder.OrderUnique | internal/collector/event_accumulator.go:390-398 | identities have one sorted order, so any sorting algorithm emits the same rows |
| RowOrder.RowsAscend | internal/collector/accumulator.go:549-569 | a report's rows ascend: by thread number, then by the start time the ordering compares first, then by the other |
| RowSort.SortRows | internal/collector/accumulator.go:549-569 | the rows of a window, each once, in that order |
| Snapshots.Normalize | internal/collector/accumulator.go:571-585 | a missing bracket is filled in so that it is non-zero and ordered; a complete one is kept |
| Snapshots.NormalizeFillsIn | internal/collector/accumulator.go:571-608 | a missing end is the latest sample time, or the clock's without one; a missing start is the earliest non-zero sample time, and no start is left after the end |
| Windows.Grid.Index | internal/collector/event_accumulator.go:378-383 | the window that contains an instant, and window 0 up to the origin |
| Windows.Grid.NextBoundary | internal/collector/event_accumulator.go:364-375 | the end of an instant's window lies after it and starts the next window |
| Flush.AlwaysInv | internal/backend/ebpf/stream_linux.go:194-231 | on every schedule, what was observed, is in the channel or is in the reader's hand is exactly what was read from the ring, in order |
| Flush.FlushDeliversAll | internal/collector/collector.go:360-404 | when a flush returns, the observed events are a prefix of the ring that holds every record written before the flush was asked for |
| Flush.NeverLateByItsOwnFlush | internal/collector/collector.go:115-123 | at any later time, a record written before a flush was observed under a watermark no later than the one in force when that flush returned; and if it was then late, its timestamp precedes that watermark, so an earlier advance made it late |
| Flush.FlushNeverDeadlocks | internal/collector/collector.go:364-390 | with channel capacities 4096 and 1, a waiting collector always has a possible step, and the acknowledgement never blocks |
| Merge.FindPartner | internal/collector/collector.go:282-296 | the only unused auxiliary row proven to be the same thread, or none when there is none or more than one |
| Merge.MergeThreads | internal/collector/collector.go:280-302 | the rows after the whole greedy matching, and which auxiliary rows it used |
| Merge.MergeHybridReport | internal/collector/collector.go:275-311 | the merged report, mismatches and quality included; untouched when the bounds differ |
| Merge.LinksAreProvenAndInjective | internal/collector/collector.go:313-324 | only proven identities are linked, and no auxiliary row twice |
| Merge.SchedulerMetricsUnchanged | internal/collector/collector.go:326-347 | merging changes no field that the events measured |
| Merge.DelaysCopiedOrCounted | internal/collector/collector.go:298-306 | delay-bearing auxiliary rows are each copied to one event row or counted as one mismatch |
| Merge.AuxiliaryTaken | internal/collector/collector.go:301-347 | the merged quality has the auxiliary scan counts and taskstats quality, the joint method name if taskstats was available, and one more mismatch for each delay-bearing auxiliary row that was not copied |
| Merge.DelaysOfPartner | internal/collector/collector.go:326-335 | a linked row carries all taskstats fields of its partner, any other row is unchanged |
| Merge.GreedyIsJoin | internal/collector/collector.go:280-302 | the greedy links are the join of the two reports if and only if no row has two partners |
| Merge.JoinOnTicks | internal/collector/collector.go:280-302 | with distinct start ticks on both sides and procfs identities on one, merging is the exact join on thread number and start ticks |
| Merge.UntickedStayAlone | internal/collector/collector.go:313-324 | an event row without start ticks has no partner among rows that procfs identified |
| Merge.SecondRowGetsNothing | internal/collector/collector.go:284-302 | of two event rows that one auxiliary row fits, the first takes the delays and the second stays as it is |
| Merge.ReuseWithinTickBreaksJoin | internal/collector/collector.go:313-324 | two threads of one number and one start tick, of which procfs knows the tick only: the older row takes the delays and the links are no join |
| TidReuse.DelaysGoToTheOlder | internal/collector/collector.go:195-237 | a run of the hybrid loop, two events, two scans and one boundary, that ends so |
| Hybrid.HybridLoop.constructor | internal/collector/collector.go:163-184 | both accumulators start on one origin, nothing stored |
| Hybrid.HybridLoop.ObserveEvent | internal/collector/collector.go:195-199 | an event reaches the event side only |
| Hybrid.HybridLoop.ObserveAuxSnapshot | internal/collector/collector.go:243-258 | a scan reaches the auxiliary side, and its reports are stored by start time |
| Hybrid.HybridLoop.CrossBoundary | internal/collector/collector.go:211-237 | a boundary closes the event window, after one more scan, and emits its report joined with what is stored for its start |
| Hybrid.ClosesOne | internal/collector/event_accumulator.go:187-219 | advancing to the event side's own boundary closes exactly its next window |
| Hybrid.ScanReaches | internal/collector/accumulator.go:94-127 | a scan that starts at or after an instant lets windows close through it |
| Hybrid.StepKeepsPaired | internal/collector/collector.go:178-237 | every step keeps the stored reports those from the event side's next window up to the auxiliary side's, and every emitted report merged with its own window's |
| Hybrid.MergedExactlyWhen | internal/collector/collector.go:223-228 | an event report meets its auxiliary report if and only if the boundary scan looked at every thread no earlier than the boundary, or the window had closed before |
| Hybrid.AlwaysPaired | internal/collector/collector.go:156-241 | the pairing holds after any run of events, sample ticks and boundaries whose scans start in time |
| SnapshotMerge.MergeSnapshots | internal/backend/hybrid/hybrid.go:144-179 | the result is one of the admissible merges, whatever the order of the map; MergedFields says of what its samples are made |
| SnapshotMerge.MergeIsOuterJoin | internal/backend/hybrid/hybrid.go:150-168 | the merge holds every identity of either scan exactly once, as the join has it, if and only if the procfs scan repeats no identity |
| SnapshotMerge.MergedFields | internal/backend/hybrid/hybrid.go:144-179 | with distinct procfs identities: each thread of either scan once; one seen by both has the taskstats delays, the procfs state, schedstat, process and name, and the time halfway between; one seen by a single scan is that very sample |
| SnapshotMerge.FirstTakesDelays | internal/backend/hybrid/hybrid.go:150-161 | whatever is repeated, the first procfs sample of a thread takes the delays of the last taskstats sample, if there is one |
| SnapshotMerge.MatchedAt | internal/backend/hybrid/hybrid.go:153-161 | of procfs samples that repeat an identity the first is matched and the others stay as they are |
| SnapshotMerge.MergeKeepsBrackets | internal/backend/hybrid/hybrid.go:173-206 | if both scans bracket their sample times, so does the merged scan, repeated identities or not; away from the zero time it is a bracketed scan in full, which is what the finality of windows needs |
| SnapshotMerge.MergeIsUnique | internal/backend/hybrid/hybrid.go:166-171 | with threads told apart by number and start ticks, there is only one result |
| SnapshotMerge.MidpointTimestamp | internal/backend/hybrid/hybrid.go:181-192 | halfway between its arguments, to the nanosecond below, or the one that is not zero |
| Netlink.BuildNetlinkRequest | internal/backend/taskstats/netlink_linux.go:212-228 | writing the fields at their offsets gives the framed message, padding and length truncation included |
| Netlink.ParseNetlinkResponse | internal/backend/taskstats/netlink_linux.go:230-262 | for any bytes: in bounds, terminating, and equal to taking the message apart from the front |
| Netlink.ParseNetlinkAttributes | internal/backend/taskstats/netlink_linux.go:264-285 | for any bytes: in bounds, terminating, and equal to taking the payload apart from the front |
| Netlink.AttributesRoundTrip | internal/backend/taskstats/netlink_linux.go:264-285 | any list of encodable attributes with types below 2^14, followed by up to three zero bytes, parses back to itself |
| Netlink.ParseThenRest | internal/backend/taskstats/netlink_linux.go:276-282 | encodable attributes of any type parse back with their flag bits dropped, and parsing goes on with what follows |
| Netlink.ParsedAreEncodable | internal/backend/taskstats/netlink_linux.go:272-281 | whatever the bytes, reported attributes have types below 2^14 and lie within the payload |
| Netlink.AwaitedAnswers | internal/backend/taskstats/netlink_linux.go:230-262 | the awaited message answers behind any complete messages of other sequence numbers |
| Netlink.RequestRoundTrip | internal/backend/taskstats/netlink_linux.go:212-262 | a built request of an ordinary type parses back to its own payload, and its attribute to itself if and only if its length fits 16 bits |
| Netlink.OverlongAttributeIsLost | internal/backend/taskstats/netlink_linux.go:216-228 | an attribute of 2^16 bytes is written with length zero, and nothing can be parsed |
| Netlink.OverlongRequest | internal/backend/taskstats/netlink_linux.go:212-262 | a request for such an attribute is well framed all the same |
| Netlink.Got32 | internal/backend/taskstats/netlink_linux.go:216-220 | reading a 32-bit field gives back what was written, in either byte order |
| TaskstatsReply.DecodeTaskstatsResponse | internal/backend/taskstats/netlink_linux.go:104-138 | for any bytes, the statistics located for the thread, or the reason there are none |
| TaskstatsReply.ThreadIsFound | internal/backend/taskstats/netlink_linux.go:112-136 | an answer that holds a thread's aggregate, behind attributes about other things, yields its statistics |
| TaskstatsReply.StatsBelongToThread | internal/backend/taskstats/netlink_linux.go:120-134 | located statistics come from an aggregate that names this very thread |
| ProcStat.ParseUndoesPrint | internal/procfs/parser.go:22-65 | for every thread number, start time, state and name, spaces and parentheses included, parsing the printed line recovers all four |
| ProcStat.NameIsOutermost | internal/procfs/parser.go:23-41 | whatever line is accepted, the name stands between the first opening and the last closing parenthesis |
| Text.FieldsOfSpaced | internal/procfs/parser.go:42-45 | splitting fields that were spaced out gives them back |
| Text.IntRoundTrip | internal/procfs/parser.go:36-39 | the decimal form of any int64 parses back |
| Text.UintRoundTrip | internal/procfs/parser.go:53-56 | the decimal form of any uint64 parses back |
| StartTime.ProcStartTimeTicks | internal/backend/ebpf/identity.go:89-108 | succeeds if and only if the rate divides a second and the sum fits uint64, without overflow on the way, least offset included |
| StartTime.TickContains | internal/backend/ebpf/identity.go:107-107 | the tick is the one that contains the adjusted start time |
| StartTime.TicksMonotone | internal/backend/ebpf/identity.go:89-108 | later starts never get earlier ticks |
| StartTime.OffsetExact | internal/backend/ebpf/identity.go:44-59 | exact and free of overflow; accepts every sum that fits int64 except those of the least second |
| StartTime.LeastOffsetRefused | internal/backend/ebpf/identity.go:44-59 | the numbers whose sum is the least int64 are well formed and refused |
| StableRead.ReadStableTask | internal/backend/proc/proc.go:110-148 | the outcome of two attempts, for every combination of missing, failing and changing reads |
| StableRead.ReadStableThreadSample | internal/backend/taskstats/taskstats.go:88-130 | the same for taskstats, which gives up when the thread is gone and never samples without counters |
| StableRead.SampleIsOneThread | internal/backend/proc/proc.go:121-145 | if threads never return to a path, a sample's thread held the path from the first look to the last, so its counters are its own and its time lies in the attempt |
| StableRead.QuietThreadIsSampled | internal/backend/taskstats/taskstats.go:96-129 | a thread that stays and answers every read of an attempt is sampled |

## Left out

- SampleNames.RowRenamed: for a name that both ends of a gap carry; between two names the later visit of the gap decides.
- EventWakeups.LatencyIsAllQueueTime: one direction, since a wakeup before the origin or a preemption makes run-queue time that no latency counts.
- Tracks and rows are values in maps that the classes reassign, not objects shared through pointers; no
  code relies on such sharing beyond one call.
- `time.Time.Sub` saturates and `time.Duration` wraps at 64 bits; this is modelled where counters are shared
  and converted, not for sums of durations in rows, for window indices or for midpoints.
- The keys of stored auxiliary reports are start times as integers; `UnixNano` wraps outside its range.
- Stopping: context cancellation, target exit, closed channels, error channels and the count limit only end a run.
- The ring buffer is first in, first out, and reports a flush after every record before it; its library,
  BPF programs, pidfds, memory limits and clocks are not part of this model.
- Sockets, polling, deadlines and sequence numbers of the netlink exchange, and file reads, are inputs.
- The counters inside a TASKSTATS statistics payload and the decoding of ring records.
- A hybrid run whose first scan has no delays runs the event side alone; that case adds nothing to prove.
- Source status sets, renderers, filtering and sorting for display, percentages, command line and `doctor`.
- The text around the two numbers of the boot-time offset, the auxiliary vector and the schedstat line.
- Text.FieldsOfSpaced: white space is the six ASCII characters; Go also splits at Unicode spaces when a field holds bytes above 0x7F.
- Netlink.ParseNetlinkResponse: lengths are taken on a 64-bit machine, where no 32-bit length turns negative.
- EventTheorems.RowShowsTimeline: per row only when one lifetime wrote it and wrote no other in that window; outside the collector's schedule `Observe` can complete an identity in mid-window, and the lifetime is split over two rows.
- EventTheorems.ExactCoverage: for lifetimes without an event after their death, since dead tracks stop accruing until one comes.
- EventSchedule.CollectedRowShowsTimeline: asks of the events what the collector's stream gives, start times in nanoseconds that never go back for a thread number and ticks that are a function of them.
- Conservation.CountersConserved: durations are exact below 2^63 nanoseconds a gap, where `nanosecondsDuration` saturates; resets and sample pairs are counted once in each window that a gap reaches (`SchedstatTallies`, `DelayTallies`), so their sum over windows is not conserved.
- SnapshotMerge.MergeKeepsBrackets: around the zero time a midpoint of two times can be zero, which reads as missing, so only the order of the bracket is kept there.
