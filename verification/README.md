# NTrace core: a verified model

NTrace is a route tracer. It sends probes with increasing TTLs, matches the
replies, and reports per-hop statistics, locations and names, once or
continuously (the MTR mode). This project models its stateful and arithmetic
core in Dafny and proves what that core is meant to guarantee.

Each protocol is a state machine over single critical sections, driven by an
environment that chooses everything the program does not control: the order
and lateness of replies, the clock, pauses, resets, failures, the results of
lookups and parsers. The theorems are about every run. Beside the state
machines stand classes with the program's own mutable fields; their methods
are proved to take the specified steps. What is shown, launched, kept or
returned in the end is told a second time from the messages of a run alone,
and proved equal.

| files | subject |
|---|---|
| Text, Words | options, trimming and lower-casing; the 32-bit modulus |
| MtrAccum, MtrRows, MtrRowsStayOk, MtrDirectStats, MtrMerging, MtrAggregator | MTR statistics: accumulators, rows, the mutable aggregate, and agreement with statistics computed from the whole list of attempts |
| MtrMetadata, MtrMetadataPolicy, MtrMetadataEnding, MtrMetadataTables | background lookups with retries and cooldown, also told for one address alone |
| MtrScheduler, MtrSchedulerProofs, MtrSchedulerProgress, MtrSchedulerEnding, MtrSchedulerFinish, MtrSchedulerReports, MtrSchedulerFinals, MtrSchedulerRows, MtrSchedulerPacing, MtrSchedulerLookups, MtrSchedulerLoop | the per-hop scheduler: specification, invariants, progress, how runs end, what is reported, which TTLs have rows, what the rows show, when probes and lookups are launched, imperative loop |
| IcmpEngine, IcmpAttribution, IcmpCollisions, IcmpResets, IcmpHearing, IcmpBooks, IcmpEngineObject | the persistent ICMP engine shared by concurrent probes |
| TraceAudit, TraceProtocol, TraceHearing, TraceFates, TraceTracer | the classic tracer: result audit, workers against timeout guards, what a trace returns, what becomes of each attempt, its objects |
| Checksum, Fragment, IpPayload, Mpls | packet arithmetic and parsing |
| DnsScope | the scoped switch of the DNS resolver |
| WsSession, WsSessionResults, WsSessionObject | running and shutting down a websocket session |
| Nali, NaliFound, NaliAnnotator | addresses in text, labels and their cache |
| GeoFeed | the geofeed table |

`dafny verify dfyconfig.toml` checks everything.

## Assumptions

- A prober reports success exactly when it reports an address, for the TTL it was asked for; addresses are printed without blanks.
- Clock readings never go back. `float64` is modelled over the reals; RTTs are 64-bit integers.
- Address parsing, CIDR parsing, sorting and label sources are parameters; only what is stated about them is used.
- Strings are sequences of bytes, and case folding is ASCII.

## Where the code departs from what one would expect

- `MigrateStats` with equal TTLs deletes the rows instead of keeping them (`MtrRows.MigrateConserves`).
- `detectDestination` clears only the old final TTL, so rows of other hops above the final one stay (a run: `MtrSchedulerReports.RowAboveFinalStays`; exactly when: `MtrSchedulerFinals.NoRowsAboveFinalExactly`).
- The scheduler also waits for running metadata lookups before it ends (`MtrSchedulerLoop.Scheduler.CheckDone`).
- A call to the ICMP engine can take the reply of another call if it outlives a full turn of the 16-bit number, or registers after a rotation, and only then (`IcmpResets.OwnExactly`). Across a reset it can take one only in the first case (`IcmpResets.ResetExactly`).
- `findValid` takes the last word that looks like the start of an extension; a later one inside a label hides the structure (`Mpls.LaterStartHides`).
- A checksum target of 0 cannot be met, since 0 is sent as 0xFFFF (`Checksum.SteeredChecksum`).
- The 257th attempt for a TTL collides with the first (`TraceProtocol.DecodeExact`).
- A resolver scope nested in one with another name waits for itself (`DnsScope.OtherNameHangs`).
- IPv4-mapped IPv6 rows of a geofeed come before all IPv4 rows, so the first match need not be the longest (`GeoFeed.FirstMatchIsLongest`).

## Model

| member | source | states |
|---|---|---|
| MtrScheduler.NormalizeGivesValid | trace/mtr_scheduler_runtime.go:77-166 | the constructor either reports an error, exactly when the first hop lies above the last after defaults and the 255 limit, or yields a usable configuration |
| MtrScheduler.DefaultsByTable | trace/mtr_scheduler_runtime.go:77-166 | every default and limit of the configuration as a number; left to itself, the number of probes in flight per hop is one more than the hop intervals that begin within the timeout |
| MtrSchedulerProofs.StepKeeps | trace/mtr_scheduler_runtime.go:168-203 | every turn of the event loop keeps the invariant: counters match outstanding probes, aggregate sums match completed counts, TTLs above the final one are disabled, only the final TTL has a destination row |
| MtrSchedulerProofs.SentAccounting | trace/mtr_scheduler_runtime.go:261-359 | in every reachable state the sum of sent over the rows of a TTL equals its completed count, and so does the number of callbacks for it in this generation; above the final TTL the sum is that count where rows are left, and zero where they were cleared |
| MtrSchedulerProofs.DestinationIsFinal | trace/mtr_scheduler_runtime.go:684-713 | a TTL is disabled exactly when it is above the known final TTL, and exactly the final TTL holds a row for the destination address |
| MtrSchedulerProofs.FlightsAreBounded | trace/mtr_scheduler_runtime.go:764-776 | inFlight is the number of outstanding probes of all generations and at most the parallelism; each inFlightCount counts those of its TTL and generation and is within its limit; completed plus in flight never exceeds the budget |
| MtrSchedulerProofs.BudgetBranchIsDead | trace/mtr_scheduler_runtime.go:338-343 | the early return for a used-up budget is never taken in a run |
| MtrSchedulerProofs.StaleResultIsInert | trace/mtr_scheduler_runtime.go:261-280 | a result of an older generation changes nothing but inFlight |
| MtrSchedulerProofs.ResetKeeps | trace/mtr_scheduler_runtime.go:799-819 | a reset keeps the invariant with no destination known, while old probes stay counted in inFlight |
| MtrSchedulerProofs.DetectKeeps | trace/mtr_scheduler_runtime.go:684-713 | finding the destination sets, lowers or keeps the final TTL, clears only the old final row, and keeps the invariant |
| MtrSchedulerProofs.ResultKeeps | trace/mtr_scheduler_runtime.go:261-280 | any result of an outstanding probe, in any order and of any generation, keeps the invariant |
| MtrSchedulerProofs.RowsAfterOne | trace/mtr_stats.go:74-97 | one recorded attempt adds one to the sum of sent of its TTL, also when the unknown row is merged into the known one, and adds a destination row only if it came from the destination |
| MtrSchedulerRows.RowsShowAnswers | trace/mtr_scheduler_runtime.go:299-374 | over any run and for any number of responders, told from the messages alone: the counters of a TTL and its callbacks are its counted results one by one, and an address has a row exactly when it answered, showing received, last, average, best, worst and variance of the RTTs the prober gave, and the host and location of the latest answer that had any, filled up by lookups |
| MtrSchedulerRows.OnlyResponderShown | trace/mtr_scheduler_runtime.go:299-374 | when one address alone answers a TTL, it has one row and every column, sent and loss and labels included, is what the results of this generation say, synthetic timeouts counted |
| MtrSchedulerPacing.LaunchesArePaced | trace/mtr_scheduler_runtime.go:243-259 | in every run the scan of a later launch of a TTL comes no earlier than the interval after the clock reading of the launch before it in the same generation |
| MtrSchedulerPacing.TurnsLaunchWhatIsDue | trace/mtr_scheduler_runtime.go:729-776 | in every run each turn launches exactly the TTLs that are due, in order and as far as the parallelism allows, and none while paused: not above the final TTL, with room in flight and in the budget, and rested since their last launch |
| MtrSchedulerProgress.ReportsNeverGoBack | trace/mtr_scheduler_runtime.go:205-229 | without a reset the final TTL never rises, no completed count falls and the reported iteration never decreases, over any continuation of any run |
| MtrSchedulerProgress.IterationIsMin | trace/mtr_scheduler_runtime.go:213-229 | the reported iteration is the least completed count of the TTLs in use, and one of them has it |
| MtrSchedulerProgress.ResultLowersRank | trace/mtr_scheduler_runtime.go:282-297 | every processed result uses up part of the finite work budget built from completed * maxConsecErrs + consecutiveErrs, whatever the result is |
| MtrSchedulerProgress.RunsAreBounded | trace/mtr_scheduler_runtime.go:282-297 | with a budget and no reset or cancellation the launches and results of a whole run are bounded by a number computed from the configuration |
| MtrSchedulerEnding.EveryRunCompletes | trace/mtr_scheduler_runtime.go:282-297 | no choice of schedule: any run without reset or cancellation, in whatever order results, ticks and lookups come, either has completed every TTL in use exactly as often as budgeted, in counters and in rows, with nothing outstanding, or contains fewer results and late enough ticks than the rank it started with |
| MtrSchedulerFinish.EveryRunEnds | trace/mtr_scheduler_runtime.go:168-203 | without DN42, or without lookups in the background: in any undisturbed run results, late enough ticks and returning lookups, whatever they bring, use up a bound given by the state, and the run can go on by one of them as long as the loop has not ended; once it has, every TTL in use is at exactly the budget |
| MtrSchedulerFinish.EndsExactly | trace/mtr_scheduler_runtime.go:778-806 | in every reachable state, whatever resets, cancellations and pauses there were, the loop has ended if and only if every TTL in use was reported as often as the budget asks and no probe and no lookup of this generation is on its way |
| MtrMetadataEnding.ReturnPays | trace/mtr_scheduler_runtime.go:579-606 | without DN42 every lookup that returns, useful or not, leaves fewer returns to come, and no deadline is pending for a lookup in flight |
| MtrSchedulerEnding.NextMoveMovesOn | trace/mtr_scheduler_runtime.go:168-203 | an unfinished run can always go on by such a result or tick |
| MtrSchedulerEnding.EveryRunCanFinish | trace/mtr_scheduler_runtime.go:168-203 | from every reachable unfinished state of a run with a budget there is an undisturbed continuation, bounded by the state, after which the loop has ended with every TTL in use at exactly the budget |
| MtrSchedulerEnding.DoneStays | trace/mtr_scheduler_runtime.go:764-797 | once all budgets are used up, no further turn launches or completes anything |
| MtrSchedulerReports.ReportedIterationsNeverDecrease | trace/mtr_scheduler_runtime.go:205-229 | over any run, resets included, the iterations passed to the probe callback never decrease within a generation, and none of the current generation exceeds the present iteration |
| MtrSchedulerFinals.RowsExactly | trace/mtr_scheduler_runtime.go:684-707 | over any run a TTL has rows exactly when it has completed probes in this generation and was not final earlier in it, and they then hold exactly its completed probes; TTLs that were final earlier lie above the present one |
| MtrSchedulerFinals.NoRowsAboveFinalExactly | trace/mtr_scheduler_runtime.go:684-713 | no rows lie above the final TTL if and only if every TTL above it has no completed probe in this generation or was final earlier in it |
| MtrSchedulerReports.RowAboveFinalStays | trace/mtr_scheduler_runtime.go:684-707 | a run of two replies after which TTL 1 is final and the row of TTL 2 is still there |
| MtrSchedulerProgress.SomethingIsLaunchable | trace/mtr_scheduler_runtime.go:764-797 | with nothing in flight and work left, some TTL can be launched as soon as the clock passes its next time |
| MtrSchedulerProgress.TickMakesProgress | trace/mtr_scheduler_runtime.go:747-762 | an unpaused tick after the waiting times launches at least one probe when nothing is in flight and work is left |
| MtrSchedulerProgress.DoneMeansComplete | trace/mtr_scheduler_runtime.go:778-797 | when the loop ends, every TTL in use has exactly the budgeted number of completed and of aggregated probes, and nothing is outstanding |
| MtrSchedulerProgress.LookupsAreDisciplined | trace/mtr_scheduler_runtime.go:408-459 | in every run of the whole scheduler: one lookup in flight per kind, address and generation, at most four attempts, a retry deadline only at four, and five launches without a success span the 30 second cooldown |
| MtrSchedulerLoop.Scheduler.Turn | trace/mtr_scheduler_runtime.go:168-203 | one turn of the imperative loop takes exactly one step of the specified state machine, callbacks and lookup log included |
| MtrSchedulerLoop.Scheduler.RunLoop | trace/mtr_scheduler_runtime.go:168-203 | the loop over any inputs ends in the state of the specified run, so all lemmas about runs hold of it |
| MtrSchedulerLoop.Scheduler.ScheduleReady | trace/mtr_scheduler_runtime.go:747-762 | launches, in TTL order and within the parallelism, exactly the probes of the specification |
| MtrSchedulerLoop.Scheduler.ProcessProbeSuccess | trace/mtr_scheduler_runtime.go:338-359 | the new state, callbacks and lookups of a successful or silent result are those of the specification |
| MtrSchedulerLoop.Scheduler.ProcessProbeError | trace/mtr_scheduler_runtime.go:282-305 | an error counts towards the error budget; the last allowed one is recorded as a timeout |
| MtrSchedulerLoop.Scheduler.DetectDestination | trace/mtr_scheduler_runtime.go:684-713 | updates the final TTL, the disabled TTLs and the aggregate as specified |
| MtrSchedulerLoop.Scheduler.HandleReset | trace/mtr_scheduler_runtime.go:799-819 | on request starts a new generation with fresh counters, aggregate and metadata tables, keeping inFlight |
| MtrSchedulerLoop.Scheduler.ProcessMetadataResult | trace/mtr_scheduler_runtime.go:527-544 | late metadata of this generation is cached and patched into the rows; other results are dropped |
| MtrSchedulerLoop.Scheduler.CheckDone | trace/mtr_scheduler_runtime.go:778-797 | answers whether all budgets are used and neither probes nor lookups are on their way |
| MtrSchedulerLoop.Scheduler.ComputeIteration | trace/mtr_scheduler_runtime.go:213-229 | the loop computes the specified minimum over the enabled TTLs |
| MtrMetadata.StepKeepsWorld | trace/mtr_scheduler_runtime.go:391-459 | every step of the metadata bookkeeping keeps attempts, deadlines, in-flight marks and the launch history consistent |
| MtrMetadata.LookupDiscipline | trace/mtr_scheduler_runtime.go:579-682 | at most one lookup in flight per kind and address, at most four attempts, a deadline only after the fourth, and any five launches without a success are at least 30 seconds apart from first to last |
| MtrMetadata.ProcessResultOk | trace/mtr_scheduler_runtime.go:527-577 | a returned lookup is cached, retried or followed by a geo lookup without breaking the discipline |
| MtrMetadataPolicy.SeenIn | trace/mtr_scheduler_runtime.go:389-459 | a reply changes the tables of its own address alone, and launches what is missing, not under way and not resting |
| MtrMetadataPolicy.ReturnedIn | trace/mtr_scheduler_runtime.go:508-682 | a returned lookup changes the tables of its own address alone: first finding kept, four launches in vain before a rest of 30 seconds from the next time it is asked for, a DN42 location after the name or its failure |
| MtrSchedulerLookups.LookupsAreThoseCalledFor | trace/mtr_scheduler_runtime.go:338-682 | over any run, what the scheduler knows of an address, is looking up, and every lookup it launched, with its time, are those the messages call for, whatever other addresses do |
| MtrMetadataTables.Metadata.LaunchLookups | trace/mtr_scheduler_runtime.go:391-406 | launches the geo and host lookups of the specification on the tables and logs them |
| MtrMetadataTables.Metadata.RetryLookup | trace/mtr_scheduler_runtime.go:579-606 | retries or gives up as specified |
| MtrMetadataTables.Metadata.CachePatch | trace/mtr_scheduler_runtime.go:628-656 | merges found metadata into the cache and forgets the attempts of what was found |
| MtrMetadataTables.Metadata.ProcessResult | trace/mtr_scheduler_runtime.go:527-577 | handles a returned lookup as specified |
| MtrMetadataTables.LookupTable.RetriesExhausted | trace/mtr_scheduler_runtime.go:666-682 | starts, waits out or ends the cooldown of one address |
| MtrRows.UpdateRowsAddsAttempts | trace/mtr_stats.go:74-97 | aggregating a batch adds exactly its number of attempts to the sum of sent of its TTL |
| MtrRows.MergeUnknownKeepsSum | trace/mtr_stats.go:269-294 | merging the unknown row into the only known one loses no probe |
| MtrRows.MigrateConserves | trace/mtr_stats.go:120-146 | uncapped migration moves every probe and leaves other TTLs alone, if and only if the two TTLs differ or there is nothing to move: onto itself it deletes the rows |
| MtrRows.PatchKeepsSums | trace/mtr_stats.go:185-213 | late metadata changes no count and no key |
| MtrRows.PatchesItsRows | trace/mtr_stats.go:185-213 | late metadata fills the empty host and location of every row of exactly that address, and changes no other row |
| MtrRows.MergeOneMore | trace/mtr_stats.go:74-97 | groups may be merged in any order: one more group merged is the map-wise merge of one more group |
| MtrRowsStayOk.OperationsKeepOk | trace/mtr_stats.go:74-213 | update, clearing, migration with or without a cap, and patching keep received <= sent and received * sumSq >= sum * sum in every row |
| MtrRowsStayOk.RowsArePossible | trace/mtr_stats_helpers.go:208-258 | in every reachable state of the scheduler each row shows a loss from 0 to 100 and a variance that needed no clamping |
| MtrAccum.GroupAttempts | trace/mtr_stats_helpers.go:34-48 | the grouping loop computes the groups by address, host or unknown |
| MtrAccum.GroupsOk | trace/mtr_stats_helpers.go:34-71 | every group of any attempts has received <= count and a possible sum of squares |
| MtrAccum.MergesKeepMoments | trace/mtr_stats_helpers.go:103-153 | both merge functions keep received <= sent and received * sumSq >= sum * sum |
| MtrAccum.VarianceNeedsNoClamp | trace/mtr_stats_helpers.go:224-232 | the variance formula is never negative on such accumulators, so its clamp at zero does nothing |
| MtrAccum.CapKeepsMeanAndVariance | trace/mtr_stats_helpers.go:176-206 | capping cuts sent and received to the limit, keeps the mean, and keeps the sample variance when more than one value is left; it changes nothing exactly when sent is within the limit |
| MtrDirectStats.SingleResponder | trace/mtr_stats.go:74-97 | for any batches in which one address answers, the TTL ends with one row whose Snt, Received, Last, Best, Wrst, Avg and variance are those computed directly from the whole list of attempts |
| MtrDirectStats.SingleResponderOfUpdates | trace/mtr_stats.go:74-97 | the same over any sequence of whole updates of the aggregate, whatever the other TTLs see |
| MtrDirectStats.BestIsLeast | trace/mtr_stats_helpers.go:50-71 | the running best is the least positive RTT of the list |
| MtrDirectStats.MomentsGiveVariance | trace/mtr_stats_helpers.go:224-232 | the variance from sums of powers equals the mean squared deviation of the list |
| MtrDirectStats.MeasureConcat | trace/mtr_stats_helpers.go:103-127 | merging a group gives the statistics of the concatenated lists |
| MtrMerging.GroupsAreOfTheirAttempts | trace/mtr_stats_helpers.go:34-71 | each key that occurs has one group; its count, RTTs and labels are those of its attempts, its location the first known |
| MtrMerging.GroupIsAdded | trace/mtr_stats_helpers.go:103-127 | a row that shows some attempts, with a group of others added, shows all of them, and takes host, address and location of the group where it has them |
| MtrMerging.RowIsAdded | trace/mtr_stats_helpers.go:129-153 | one row merged into another shows the attempts of both and keeps its own host, address and location where it has them |
| MtrMerging.UpdateShows | trace/mtr_stats.go:73-97 | after an update, whoever answered, every row shows the attempts of its key, old and new, and those of unknown origin if it is the only known one |
| MtrMerging.MigrationShows | trace/mtr_stats.go:120-146 | migrating joins the attempts of two TTLs key by key in rows of the new TTL, then cuts each row to the budget |
| MtrAggregator.Aggregator.Update | trace/mtr_stats.go:74-97 | the mutable aggregate, with maps visited in any order, takes the value of the specification; no accumulator is shared between rows |
| MtrAggregator.Aggregator.ClearHop | trace/mtr_stats.go:110-114 | removes the rows of one TTL and nothing else |
| MtrAggregator.Aggregator.MigrateStats | trace/mtr_stats.go:120-146 | moves, merges and caps accumulators in place to the specified value, also when both TTLs are the same |
| MtrAggregator.Aggregator.Clone | trace/mtr_stats.go:149-174 | the copy has the same value and only accumulators of its own |
| MtrAggregator.EmitPreview | trace/mtr_loop_runtime.go:168-175 | updating a clone with a partial round leaves the aggregate untouched |
| MtrAggregator.Aggregator.PatchMetadataByIP | trace/mtr_stats.go:185-213 | fills in missing host and geo of the rows of an address and reports whether any row changed |
| MtrAggregator.Aggregator.MergeUnknownIntoSingleKnown | trace/mtr_stats.go:269-294 | merges in place when exactly one known row exists |
| MtrAggregator.HopAccum.AddAccum | trace/mtr_stats_helpers.go:129-153 | in-place merge of one accumulator into another, also into itself |
| MtrAggregator.HopAccum.CapAt | trace/mtr_stats_helpers.go:176-206 | in-place cap |
| IcmpEngine.WrapIsExact | trace/mtr_runner.go:435-440 | the wrap test is true exactly when one of the next numbers would be 0 on the wire, unless adding the number of probes to the low half of the counter overflows 32 bits and comes back below 0x10000 |
| IcmpEngine.StepKeeps | trace/mtr_runner.go:445-545 | every critical section of ProbeTTL, onICMP, Reset and rotation, in any interleaving, keeps the invariant of the shared maps |
| IcmpEngine.EpochNumbersIncrease | trace/mtr_runner.go:892-902 | numbers given out in one echoID epoch are strictly increasing and between 1 and 0xFFFF |
| IcmpEngine.AllocationIsInEpoch | trace/mtr_runner.go:892-902 | a number given out belongs to the epoch of that moment and is its highest so far |
| IcmpEngine.ChannelsAreOpen | trace/mtr_runner.go:530-545 | every channel in probeNotify is still open and stands there once, so none is closed twice |
| IcmpEngine.SuccessHasValidRtt | trace/mtr_runner.go:505-523 | a successful probe carries an RTT above zero and within the timeout |
| IcmpAttribution.SuccessIsOwn | trace/mtr_runner.go:892-978 | in runs where fewer than 0xFFFF numbers are given out during a call and calls register within their epoch, a success answers the probe of that very call, with its TTL, and nothing was reset in between |
| IcmpResets.NoReplyAcrossReset | trace/mtr_runner.go:982-996 | as long as fewer than 0xFFFF numbers are given out during a call, and whenever calls register, no call registered before a reset or a rotation takes a reply stored after it |
| IcmpResets.OwnExactly | trace/mtr_runner.go:892-978 | every success is the reply to the probe of its own call in all runs that meet the chosen conditions, if and only if both short lives and timely registration are chosen |
| IcmpResets.ResetExactly | trace/mtr_runner.go:892-996 | no reply is taken across a reset in all runs that meet the chosen conditions, if and only if short lives are chosen; timely registration makes no difference |
| IcmpResets.RepliesAreOfThisRound | trace/mtr_runner.go:484-545 | in every reachable state without a reset under way, every stored reply answers a probe of the current round |
| IcmpHearing.CallsGetWhatTheyHear | trace/mtr_runner.go:484-545 | in every timely run the result of a call is told by the messages alone: the first reply for its number after it registered, with the address that sent it and its labels, timed from its own send if that came first and from its registration otherwise, or nothing if that reply was late, of an earlier round or emptied out; a waiting call is woken exactly when its answer is there or can no longer come |
| IcmpHearing.SuccessIsExplained | trace/mtr_runner.go:892-996 | behind every success of a timely run lies a reply for its number from the address it names, with its labels, and its RTT is the time from the latest of the registration and the send of that call to that reply |
| IcmpBooks.RunIsBooked | trace/mtr_runner.go:892-996 | in every run the messages tell where each call is, its number on the wire, the rotations, and how often the maps were emptied when a call registered and when it ended |
| IcmpBooks.NothingIsLeft | trace/mtr_runner.go:892-996 | in every reachable state the probes and channels are those of calls that have registered and not ended, and a stored reply is for such a call or for one that gave up |
| IcmpAttribution.AcceptedRepliesAreOfThisRound | trace/mtr_runner.go:484-545 | a reply is stored only for a registered probe of the current round; either way that probe is forgotten, its waiter woken, and no other number touched |
| IcmpCollisions.OldCallTakesYoungReply | trace/mtr_runner.go:892-978 | a run that keeps registration in time but lets a call outlive a full turn of numbers ends with a call that took the reply of another one, also with a reset between its registration and that reply |
| IcmpCollisions.LateRegistrationLeavesReply | trace/mtr_runner.go:892-978 | a run with short calls in which one registers after a rotation ends with a call that took the reply of another one |
| IcmpEngineObject.MtrIcmpEngine.StoreProbeReply | trace/mtr_runner.go:530-545 | stores the reply, forgets the probe, and closes and removes its channel |
| IcmpEngineObject.MtrIcmpEngine.OnIcmpReply | trace/mtr_runner.go:484-545 | the callback on the real maps and channels does what the specification says |
| IcmpEngineObject.MtrIcmpEngine.WakeAll | trace/mtr_runner.go:982-994 | closes every waiting channel once and empties the maps |
| IcmpEngineObject.MtrIcmpEngine.RegisterProbe | trace/mtr_runner.go:904-912 | registers the probe with a fresh channel |
| IcmpEngineObject.MtrIcmpEngine.TakeNumber | trace/mtr_runner.go:901 | takes the next number: the low 16 bits of the advanced counter |
| IcmpEngineObject.MtrIcmpEngine.MarkSent | trace/mtr_runner.go:928-933 | corrects the start of a probe that is still registered, and adds none |
| IcmpEngineObject.MtrIcmpEngine.TakeProbeReply | trace/mtr_runner.go:944-950 | takes a stored reply out, so that it is taken once |
| IcmpEngineObject.MtrIcmpEngine.ForgetProbe | trace/mtr_runner.go:964-976 | a call that gives up removes its probe and its channel without closing it |
| IcmpEngineObject.MtrIcmpEngine.RequestReset | trace/mtr_runner.go:982-984 | forgets the final TTL and advances the round modulo 2^32 |
| TraceAudit.EnoughAttempts | trace/trace.go:180-200 | the derived number of attempts is never below the number of measurements, an explicit sufficient number is kept, and deriving again changes nothing |
| TraceAudit.AttemptsByTable | trace/trace.go:180-200 | the derived number of attempts, as a table for 1 to 10 measurements |
| TraceAudit.BucketIsBounded | trace/trace.go:345-388 | a bucket kept by the audit never exceeds the number of measurements |
| TraceAudit.AddKeepsBucket | trace/trace.go:345-388 | one more accepted attempt keeps the audit: no duplicates, and beyond the first n - 1 indices at most one |
| TraceAudit.AnyOrderFillsExactly | trace/trace.go:345-388 | all attempts offered in any order leave exactly the number of measurements, and all of the first n - 1 indices |
| TraceAudit.KeepsTheChosen | trace/trace.go:345-388 | whatever is offered in whatever order: kept are exactly the attempts of the first n - 1 indices and the first other one that is valid, the last, or follows a valid one of those |
| TraceAudit.ValidIsNotLost | trace/trace.go:345-388 | offered in the order of their indices, a valid hop is kept if and only if some attempt was valid |
| TraceAudit.TraceResult.AddHop | trace/trace.go:345-388 | the in-place add changes the buckets as specified and reports the place of the hop |
| TraceAudit.TraceResult.Update | trace/trace.go:454-476 | the in-place update touches only the addressed hop |
| TraceAudit.TraceResult.ReduceTo | trace/trace.go:394-401 | cuts the result at the final TTL |
| TraceProtocol.DecodeExact | trace/icmp_ipv4.go:222-241 | a number decodes to its TTL and index exactly when both are between 0 and 255: the 257th attempt collides |
| TraceProtocol.StepKeeps | trace/icmp_ipv4.go:137-241 | every step of senders, match workers and timeout guards, in any interleaving, keeps the invariant of pending marks, claims and buckets |
| TraceProtocol.EachAttemptOnce | trace/icmp_ipv4.go:414-441 | each attempt contributes at most one hop, each hop comes from a launched attempt, each bucket is within the number of measurements |
| TraceProtocol.FinalIsLeast | trace/icmp_ipv4.go:173-198 | final is the least TTL at which the destination was seen, and once set it only decreases |
| TraceProtocol.UpdateHitsItsHop | trace/trace.go:559-586 | an asynchronous metadata update changes the hop it was started for and no other, whatever was added meanwhile |
| TraceProtocol.ReducedResult | trace/icmp_ipv4.go:335-352 | cutting the result at final keeps the buckets below it and their bounds |
| TraceHearing.ResultIsTold | trace/icmp_ipv4.go:173-241 | in every interleaving each hop offered is a reply to its own probe, with the address, time and labels the messages tell, or the timeout of its own attempt, none twice; kept are exactly those the audit chooses, in their order; final comes from a reply of the destination, and no offered reply of the destination lies below it |
| TraceHearing.NothingGetsLost | trace/icmp_ipv4.go:173-441 | a pending mark goes only by a failed send, a cancellation or a winner, and a winner goes on until its hop is offered, unless the destination was found at a lower TTL or, for a timeout, the places are filled |
| TraceFates.OpenIsPending | trace/icmp_ipv4.go:137-171 | in every interleaving a mark is pending exactly while nothing has settled its launched attempt, and a send time is known exactly from the send until a thread is done with it |
| TraceFates.FateIsTold | trace/icmp_ipv4.go:200-241 | in every interleaving the messages tell where the next step leads: a launch starts a sender and its guard, a reply is looked up by the time of its send, and a claim or the end of the waiting time wins the attempt, and gives that hop, if and only if it is still open |
| TraceFates.UpdatesAreOnce | trace/trace.go:559-586 | no metadata update is applied twice |
| TraceTracer.AtomicInt.CompareAndSwap | trace/icmp_ipv4.go:173-198 | swaps exactly when the expected value is found |
| TraceTracer.IcmpTracer.LowerFinal | trace/icmp_ipv4.go:173-198 | the compare-and-swap loop leaves the smaller of the two values |
| TraceTracer.IcmpTracer.AddHopWithIndex | trace/icmp_ipv4.go:173-198 | updates final and the result as specified |
| TraceTracer.IcmpTracer.ClearPending | trace/icmp_ipv4.go:143-149 | clearing a mark is the step of a failed send, a guard or a worker on the shared state; exactly the caller that is told so now holds the attempt |
| TraceTracer.IcmpTracer.MatchReply | trace/icmp_ipv4.go:221-241 | the body of a match worker, not interrupted, is a run of the steps of that worker; it keeps the invariant and leaves the worker idle |
| TraceTracer.IcmpTracer.Send | trace/icmp_ipv4.go:408-450 | a send from marking to storing its time, or to clearing the mark when it fails, is a run of the sender's steps that leaves the timeout guard waiting |
| TraceTracer.IcmpTracer.MarkPending | trace/icmp_ipv4.go:137-141 | marking is what launching an attempt does to the shared state of the protocol |
| TraceTracer.IcmpTracer.StoreSent | trace/icmp_ipv4.go:151-155 | storing the send time is what the end of a send does to the shared state |
| TraceTracer.IcmpTracer.LookupSent | trace/icmp_ipv4.go:157-165 | decides as the protocol does whether a worker goes on with a reply, and with which RTT |
| TraceTracer.IcmpTracer.DropSent | trace/icmp_ipv4.go:167-171 | dropping the send time is the last step of an attempt on the shared state |
| TraceProtocol.StatesAreShaped | trace/icmp_ipv4.go:246-352 | every run keeps one bucket per TTL, and every hop under way is for one of them |
| TraceTracer.AloneIsAtomic | trace/icmp_ipv4.go:173-198 | the separate steps of a worker, run without a break, amount to the method |
| Checksum.Fold16 | util/util.go:615-622 | the folding loop computes the folded sum, at most 0xFFFF |
| Checksum.AddBytes | util/util.go:625-637 | the loop adds the big-endian words, with a last odd byte as a high byte, modulo 2^32 |
| Checksum.UdpBaseSum | util/util.go:640-668 | computes the folded sum over pseudo header, UDP header and payload |
| Checksum.MakePayloadWithTargetChecksum | util/util.go:680-700 | changes only the first two bytes, to the fudge word; on a short payload or mixed families it reports the error and leaves the payload alone |
| Checksum.OnesSumIsFold | util/util.go:615-637 | one's-complement addition word by word, as RFC 768 defines it, equals the folded integer sum |
| Checksum.TotalOfDatagram | util/util.go:640-668 | what the program sums is the sum over the pseudo header (RFC 768, section 8.1 of RFC 8200) and the datagram with a zero checksum |
| Checksum.NoOverflow | util/util.go:625-668 | for payloads up to 65527 bytes the 32-bit sum never overflows |
| Checksum.SteeredChecksum | util/util.go:672-700 | the UDP checksum of the steered payload is the target, for every target but 0, which comes out as 0xFFFF |
| Checksum.ProbeComesBack | trace/udp_ipv6.go:399-435 | a probe for any TTL from 1 to 255 and index from 0 to 255 carries a checksum from which the receiver decodes the same TTL and index |
| Fragment.Fragmentize | util/frag.go:83-143 | the loop yields the specified fragments, or the errors for a small MTU or a set DF flag |
| Fragment.FragmentsCarry | util/frag.go:83-143 | fragment k carries the k-th aligned piece of the body, its offset field times 8 is the length before it, and MF is set on all but the last |
| Fragment.FragmentsFit | util/frag.go:83-143 | every fragment fits the MTU, their number is the length over the aligned size rounded up, and all but the last have a multiple of 8 bytes |
| Fragment.ReassemblyRestores | util/frag.go:83-143 | in any order and with any repetitions, reassembly by offset as in section 3.2 of RFC 791 gives back the body |
| IpPayload.ExtractIpv6Payload | util/trace.go:68-89 | the loop over extension headers computes the specified walk |
| IpPayload.GetIcmpResponsePayload | util/trace.go:91-108 | dispatches on the version and returns the payload or an error |
| IpPayload.WalkDecodes | util/trace.go:34-89 | walking any chain of whole hop-by-hop, routing, destination-options, fragment and AH headers, with the sizes of RFC 8200 and RFC 4302, ends with the payload behind it, or with the error for a header that is cut off or cannot be read |
| IpPayload.WalkFinds | util/trace.go:34-89 | on all bytes the walk is one over such a chain up to where it stops |
| IpPayload.PayloadOfPacketV4 | util/trace.go:91-108 | a header of as many 4-byte units as its first byte says and a payload give back the payload |
| IpPayload.PayloadOfPacketV6 | util/trace.go:91-108 | a 40-byte header, any chain and a payload give back the payload, or the error of what follows the chain |
| IpPayload.PayloadIsExact | util/trace.go:91-108 | on every byte string, of either version: a payload is returned if and only if the data is a packet with that payload, and each error if and only if that is what is wrong |
| Mpls.FindValid | trace/trace.go:843-872 | finds the last aligned word 2000 with enough bytes behind it, and nothing in odd-length text |
| Mpls.ExtractMpls | trace/trace.go:874-944 | the scanning loops compute the specified entries and stay inside the text on every input |
| Mpls.ReadObjects | trace/trace.go:874-944 | the loop over the extension objects computes the specified entries, or none when it gives up |
| Mpls.StructureIsRead | trace/trace.go:874-944 | from its start, an encoded extension structure (RFC 4884, RFC 4950) reads back as exactly the label, TC, S and TTL entries in order |
| Mpls.StructureIsFound | trace/trace.go:843-944 | the structure at the end of a message is found if and only if no later aligned word looks like a start; then exactly its entries are extracted |
| Mpls.StackIsExtractedExactly | trace/trace.go:843-944 | with one non-empty label stack exactly its entries are extracted if and only if no later aligned word looks like a start |
| Mpls.LaterStartHides | trace/trace.go:843-872 | a label that contains the start pattern hides the structure: a concrete valid message yields nothing |
| DnsScope.StepKeeps | util/dns_resolver.go:77-132 | every critical section of every interleaving keeps the invariant of the scope variables and locks |
| DnsScope.ActiveCallbacksAgree | util/dns_resolver.go:77-108 | callbacks active at once asked for the same resolver, it is the one in force, and the depth counts them |
| DnsScope.SettingsComeBack | util/dns_resolver.go:110-132 | the scope lock is never released unheld, and whenever it is free the settings are those from before the outermost entry |
| DnsScope.AllGoneAllRestored | util/dns_resolver.go:110-132 | after the last exit lock, depth, server and fallback are as before |
| DnsScope.SameNameEnters | util/dns_resolver.go:86-93 | a call for the resolver in force enters at once |
| DnsScope.LockHolderCanMove | util/dns_resolver.go:77-132 | while the scope lock is held, a call that is not waiting can move |
| DnsScope.WaitingCanEnter | util/dns_resolver.go:77-132 | a waiting call can always reach its callback without any new call, within a number of steps given by the state, if the running callbacks may return |
| DnsScope.ArrivalWaitsExactly | util/dns_resolver.go:86-95 | an arriving call waits for the scope lock exactly when no callback with its own name is running, whoever holds the lock |
| DnsScope.OtherNameWaits | util/dns_resolver.go:86-95 | next to a running callback an arriving call waits exactly when its name differs |
| DnsScope.OtherNameHangs | util/dns_resolver.go:77-132 | a call with another name nested inside a callback, and that callback, never move again, whatever others do |
| DnsScope.EnteredIsARun | util/dns_resolver.go:77-108 | an entry without interruption is a run of its single critical sections |
| DnsScope.LeftIsARun | util/dns_resolver.go:110-132 | an exit without interruption is a run of its single critical sections |
| DnsScope.LeftUndoesEntered | util/dns_resolver.go:77-132 | leaving undoes entering, nested or outermost |
| DnsScope.GeoResolver.Enter | util/dns_resolver.go:77-108 | the package variables after an entry are those specified |
| DnsScope.GeoResolver.Release | util/dns_resolver.go:110-132 | the package variables after an exit are those specified |
| DnsScope.GeoResolver.SetGeoDNSResolver | util/dns_resolver.go:51-66 | stores the trimmed lower-case name |
| WsSession.StepKeeps | server/ws_handler.go:130-195 | every step of senders, closers, finishers and the writer, its recovery from a panic included, in any interleaving, keeps the invariant of the guards, channels and message order |
| WsSession.NothingPanics | server/ws_handler.go:130-195 | nothing is sent on the closed send channel, neither channel is closed twice, and the session hangs up at most once |
| WsSession.WrittenInOrder | server/ws_handler.go:130-170 | the written messages are an initial part of the accepted ones in order; if closeWithCode never ran they are all of them once the writer has ended |
| WsSession.FinishedIsFinal | server/ws_handler.go:182-195 | after a finish the session is closed, the writer is gone and the connection was hung up exactly once |
| WsSession.OneStepCloser | server/ws_handler.go:130-195 | in a closed session some existing call or the writer can always take a step that brings the end of the writer nearer |
| WsSession.FinishGetsPast | server/ws_handler.go:182-195 | a finish waiting for the writer can always get past its wait, within a number of steps given by the state and without new calls |
| WsSessionObject.CloseIsARun | server/ws_handler.go:172-180 | closeWithCode as one piece is a run of its single steps |
| WsSessionObject.SendIsARun | server/ws_handler.go:157-170 | send as one piece is a run of its single steps |
| WsSessionObject.FinishBegunIsARun | server/ws_handler.go:182-190 | finish up to its wait is a run of its single steps |
| WsSessionObject.FinishEndedIsARun | server/ws_handler.go:190-195 | finish after its wait is a run of its single steps |
| WsSessionObject.TurnIsARun | server/ws_handler.go:137-153 | one turn of the writer, a failed or panicking write with its closing included, is a run of its single steps |
| WsSessionObject.DrainWritesAll | server/ws_handler.go:130-155 | once the send channel is closed and writes work, the writer writes all that is queued, in order, and ends |
| WsSessionObject.FailedWriteEnds | server/ws_handler.go:130-155 | a failed or panicking write closes the session once and ends the writer, which writes nothing more |
| WsSessionObject.LoopIsARun | server/ws_handler.go:130-155 | the whole loop of the writer is a run of its single steps |
| WsSessionObject.Session.Send | server/ws_handler.go:157-170 | refuses, enqueues or closes a slow session as specified |
| WsSessionObject.Session.CloseWithCode | server/ws_handler.go:172-180 | marks the session closed and closes the stop channel and connection the first time only |
| WsSessionObject.Session.Finish | server/ws_handler.go:182-195 | closes the send channel unless the session was closed, lets the writer go on, and hangs up once it is gone |
| WsSessionObject.Session.WriteLoop | server/ws_handler.go:130-155 | the writer's loop follows the specification for any events it meets |
| WsSessionResults.AcceptedAreWritten | server/ws_handler.go:130-170 | in every run the accepted messages are those of the calls told so, one for each and in that order; if nobody closes with a code, exactly these are written by the time the writer ends |
| WsSessionResults.SendIsAcceptedExactly | server/ws_handler.go:157-170 | a send is accepted if and only if fewer messages than the queue takes are accepted and not yet taken out; otherwise the session is closed as too slow |
| WsSessionResults.ChannelsAreOpen | server/ws_handler.go:130-195 | whoever is about to send on a channel or close one finds it open |
| Nali.ScanCandidateEnd | internal/nali/nali.go:296-312 | the scan ends behind the longest run of candidate bytes and a possible zone, inside the line |
| Nali.CandidateGivesSpan | internal/nali/nali.go:334-391 | a span parsed from a token is a non-empty piece of it that the parser accepts, with family and lookup address of that piece |
| Nali.FindIPSpans | internal/nali/nali.go:251-282 | the scanning loop terminates and yields the specified spans |
| Nali.SpansAreGood | internal/nali/nali.go:251-282 | for any parser and line the spans are increasing, disjoint, inside the line, accepted by the parser, and inserted behind a closing bracket exactly when bracketed |
| Nali.PlainAddressIsFound | internal/nali/nali.go:251-312 | an address between text that cannot belong to one is found first and whole |
| NaliFound.ExactlyTheMarked | internal/nali/nali.go:251-312 | a line whose text between addresses has no dot or colon gives exactly the spans of its addresses, in their order, annotated behind a closing bracket where one stands in brackets; what starts with two colons and is no address is passed over whole |
| NaliFound.AddressWithPortIsFound | internal/nali/nali.go:358-391 | an IPv4 address with a port, between such text, is found as that address, and nothing else is |
| NaliFound.IntegerText | internal/nali/nali.go:358-391 | what passes for a port is a number in decimal, with a sign or none, that fits 64 bits |
| NaliFound.NoPortBehind | internal/nali/nali.go:334-391 | any other text with a dot or a colon gives itself as a span if and only if the parser accepts it; a zone stays in the text and is left out of what is looked up |
| NaliAnnotator.LabelledExactly | internal/nali/nali.go:166-194 | there is one insertion for each span with a label, behind it, and no other |
| NaliAnnotator.CutOutRestores | internal/nali/nali.go:166-194 | cutting the labels out of the annotated line gives the line back, and the length grows by exactly the labels |
| NaliAnnotator.LabelsReadAsWritten | internal/nali/nali.go:166-194 | each label stands at its place behind a blank and in square brackets |
| NaliAnnotator.AnnotatingOnlyAdds | internal/nali/nali.go:166-194 | annotating adds labels and changes nothing else, whatever the parser and the labels are |
| NaliAnnotator.StoredKeepsOk | internal/nali/nali.go:232-249 | storing keeps the ages listing exactly the keys, each once, at most 4096; the new label is there and no other label changes |
| NaliAnnotator.RingStores | internal/nali/nali.go:232-249 | the ring with its moving index is a first-in first-out queue |
| NaliAnnotator.CacheHoldsNewest | internal/nali/nali.go:232-249 | after any stores the cache holds exactly the 4096 addresses that entered last, each with the text stored for it last |
| NaliAnnotator.CacheIsInvisible | internal/nali/nali.go:200-223 | with a source that answers consistently the labels are those of the source, whatever was cached or evicted |
| NaliAnnotator.Annotator.StoreLabel | internal/nali/nali.go:232-249 | the cache and ring take the value of the queue |
| NaliAnnotator.Annotator.LookupLabel | internal/nali/nali.go:200-223 | a cached label is returned without asking; a label found is cached; nothing else is returned than the source gave |
| NaliAnnotator.Annotator.AnnotateLine | internal/nali/nali.go:166-194 | the built line is the line with the labels of the allowed spans inserted |
| GeoFeed.ReadGeoFeed | dn42/geofeed.go:35-88 | each row stands in the table as often as there are lines that give it, its columns being the fields of a line of four or at least six in their order, sorted by mask text |
| GeoFeed.FindGeoFeedRow | dn42/geofeed.go:90-105 | the search loop returns the first row that contains the address, and nothing for an unreadable one |
| GeoFeed.FirstMatch | dn42/geofeed.go:98-104 | a found row contains the address and no earlier one does; nothing is found only if no row contains it |
| GeoFeed.LongerIsGreater | dn42/geofeed.go:83-85 | among masks of one family, comparing hexadecimal text orders by prefix length |
| GeoFeed.MappedIsGreater | dn42/geofeed.go:83-85 | every mapped IPv6 mask is greater text than every IPv4 mask |
| GeoFeed.ContainsIsPrefix | dn42/geofeed.go:98-104 | containment by masks is agreement on the first bits, with mapped prefixes read as IPv4 ones |
| GeoFeed.FirstMatchIsLongest | dn42/geofeed.go:83-104 | on a sorted table the first match is the longest prefix match (section 5.1 of RFC 4632) if and only if no mapped row covers the address or, for each dotted row covering it, a mapped one at least as long does |
| GeoFeed.WithoutMappedRows | dn42/geofeed.go:83-104 | without mapped rows the lookup is longest prefix match for every address |
| GeoFeed.MappedRowHides | dn42/geofeed.go:83-104 | a mapped 10.0.0.0/8 hides a dotted 10.1.0.0/16 |

## Left out

- Sockets, capture, raw sends, device binding and packet serialisation: sending and receiving are steps of the environment.
- The round-based MTR mode, its partial results and `roundFinalTTL`: another way to drive the same engine and aggregate.
- Snapshots: when they are emitted, their throttling and the order of their rows.
- Cancellation of the scheduler and `drainInFlight`: after a cancellation nothing is promised about the counters.
- The semaphores that limit concurrent metadata lookups, and the lookup timeouts: a lookup may take any time here.
- The TCP and UDP tracers apart from the checksum encoding: they follow the same protocol with other encodings.
- Rounding of floating point: the standard deviation is given by its square.
- Wrap-around of `generation`, `inFlight` and the statistics counters: they are unbounded here; the sequence counter, the round number and the checksum sums do wrap.
- Providers of locations, PoW tokens, Globalping, web routes, printers, the terminal interface and command line.
- Reading lines, the exit words and cancellation of the annotator's `Run`; formatting of labels by `FormatGeo`.
- The text of MPLS labels in the output: entries are modelled by their fields.
- Files, CSV and configuration of the geofeed: the records are given.
- The JSON rate limits and message routing of the websocket handler; close codes and reasons.
- Text.TrimLeft: strings are read as bytes, and the bytes 0x85 and 0xA0 count as blanks by themselves, where Go trims the characters U+0085 and U+00A0.
- Text.Lower: folds ASCII letters only, since other case folding is not part of this model.
- IcmpAttribution.SuccessIsOwn: the two conditions are exact as conditions on which runs are allowed (IcmpResets.OwnExactly); a single run may break one of them and still have only its own replies. The reset half needs the first condition alone (IcmpResets.NoReplyAcrossReset).
- Fragment.Fragmentize: needs an MTU at least 8 bytes above the header unless it reports an error, since the aligned size would be zero.
- WsSession.FinishGetsPast: says that a finishing schedule exists from every state, not that the Go scheduler picks it.
- MtrSchedulerProgress.RunsAreBounded: assumes no reset and no cancellation, as a run without a budget or with endless resets does not end.
- MtrSchedulerFinish.EveryRunEnds: needs DN42 or background lookups to be off; with both, a geo lookup may be asked again each time the host lookup is, and only the existence of an ending is shown (MtrSchedulerEnding.EveryRunCanFinish).
- MtrAccum.Cap: with probes received but none sent, which no operation produces (MtrRowsStayOk.OperationsKeepOk), the program divides zero by zero; here nothing is cut.
- WsSession.StepKeeps: a panic inside the closing of the connection is not a step.
- DnsScope.SettingsComeBack: no setter is called from outside a scope during the run.
- NaliAnnotator.Annotator.AnnotateLine: one line at a time; the lock around the cache is not modelled.
