# daku: a verified model of its state machines

daku is a desktop console for remote instances with a supervised polling daemon behind it. This project models
the machines that decide what an operator sees, and proves what they keep over whole runs and under every
interleaving of their threads. It verifies with Dafny 4.11: `dafny verify dfyconfig.toml`.

| file | models |
|---|---|
| `Order.dfy` | total orders, sorted enumerations of sets, stable and text sorting used by the others |
| `Protocol.dfy` | dashboard messages and the string keys of the last-value cache |
| `Fanout.dfy` | sending to registered subscribers and forgetting the gone, shared by client and supervisor |
| `Reassembly.dfy` | chunked transfers: reassembly map, eviction, cap |
| `LastValue.dfy`, `ClientStream.dfy` | the client's cache, the two-step forward, subscribers, disconnect cleanup |
| `Delivery.dfy` | the reader thread end to end: chunks in, whole messages forwarded to subscribers |
| `Requests.dfy` | the client's request table: callers, the reader's answers, timeouts, cleanup |
| `Dashboard.dfy`, `Trends.dfy` | the dashboard reducer; sparklines, timeline, calendar slots, build comparison |
| `Supervisor.dfy` | daemon respawn, remote redial, backoff, client hand-over |
| `Cadence.dfy`, `Gate.dfy` | the collector loop's timing; concurrent groups behind the availability gate |
| `PluginDiff.dfy`, `DriftPass.dfy` | inventory diff, inventory cache, one drift pass |
| `DriftVerdicts.dfy`, `DriftReport.dfy` | one verdict per environment; what it says, who is asked and what is cached, from the stored rows and pages |
| `DevQueue.dfy` | the development watcher's rebuild queue |
| `Notifications.dfy` | notification selection, bounded memory, weekly digest guard |
| `EnvSheet.dfy`, `ExpectedDriftText.dfy`, `LabelId.dfy` | text forms of the environment sheet |

A concurrent component is a `State` with a function `Next` over actions, one action for each critical section,
each send made outside one, or await; a run is any sequence of actions and an action that is not enabled waits. Beside it stands a class whose
methods are those critical sections in the source's own form, each proved to take its fields exactly where `Next`
says, so the lemmas about all runs speak about the class. Sequential code is a method proved against a
specification function. Messages, probe results, fetched pages, write failures and clocks are arbitrary inputs.
Times are integers; payload values are reals.

Preconditions are the ones the source establishes itself: configured environment ids are distinct
(crates/daku-core/src/config.rs:75-84), a ServiceNow group registers availability first and each signal once
(crates/daku-core/src/collector.rs:541-618), request ids are fresh.

What the proofs found where the code is not what one might expect:

- An environment that leaves the list and returns has lost its old data on a dashboard that was watching, but a
  dashboard that subscribes afterwards still gets it from the cache (`Dashboard.ReturningEnvironmentDiverges`).
  `Dashboard.LateSubscriberAgreesIff` says exactly when the two agree.
- Cache keys of different series are equal only if an environment id contains a colon, which the id grammar of
  configured environments rules out (`Protocol.KeysCollideWithColon`, `Protocol.SupportedIdsAreUnambiguous`).
- A request that passed the disconnected check and registers after cleanup emptied the table gets no reply and
  waits for its timeout (`Requests.LateCallExample`); `Requests.OnlyLateCallsWaitForTheTimeout` shows it is the
  only kind.
- The mismatch list can be read back unless a differing plugin is active with a version that itself ends in the
  inactive suffix (`PluginDiff.PatchRoundTrip`, `PluginDiff.RenderingCollides`).
- A daemon edit whose debounce fires during the initial build stays queued with no build running until the next
  change (`DevQueue.DaemonEditDuringStartupIsStuck`, `DevQueue.NextChangeUnsticks`).
- A plain count threshold set to off shows as an empty field, which reads back as its default
  (`EnvSheet.RoundTripThresholds`).
- A batch for an environment that is not listed is forgotten at once, so a replay of it selects its notification
  again (`Notifications.UnlistedBatchSelectsTwice`). `Notifications.ReplayIsSilentIff` and
  `Notifications.ReplayAboveCapIff` say when a replay is silent, up to keys of equal age at the edge of the cap, of
  which the hash order decides.
- Slow lists can start closer together than the slow interval, because each waits for the groups and the shared list
  of its own tick (`Cadence.SlowListsCanCrowd`); it is the ticks that keep the distance.
  `Cadence.SteadySlowListsApartIff` says exactly when the lists keep it too.
- A failed build is not retried until the next change (`DevQueue.FailedBuildIsNotRetried`);
  `DevQueue.IdleMeansLaunchedIff` says exactly when the running app has every app change.

## Model

| member | source | states |
|---|---|---|
| `Protocol.KeysDistinguishSeries` | crates/daku-protocol/src/protocol.rs:446-476 | for colon-free environment ids two series have the same cache key if and only if they are the same series |
| `Protocol.SupportedIdsAreUnambiguous` | crates/daku-protocol/src/protocol.rs:260-273 | ids accepted by the id grammar contain no colon |
| `Protocol.KeysCollideWithColon` | crates/daku-protocol/src/protocol.rs:446-476 | with a colon two different series share a key |
| `Protocol.EnvironmentsKeyIsFirst` | crates/daku-protocol/src/protocol.rs:448-448 | the environment list sorts before every series |
| `Reassembly.RunKeepsWellFormed` | crates/daku-client/src/client.rs:62-102 | for every chunk sequence, malformed ones included: at most 64 transfers, one per series key, none complete, each with fewer parts than its count, or than 2^32 if the count is 0 |
| `Reassembly.DeliveredOnLastMissingChunk` | crates/daku-client/src/client.rs:87-102 | in any interleaving a chunk of an undisturbed transfer delivers exactly when it completes the index set, and then the payload in index order |
| `Reassembly.DeliveredExactlyOnce` | crates/daku-client/src/client.rs:87-162 | a complete undisturbed transfer makes exactly one chunk deliver the whole message, and leaves the map |
| `Reassembly.QuietIsUndisturbed` | crates/daku-client/src/client.rs:69-84 | a transfer is undisturbed when no other chunk opens its series and fewer than 64 transfers have a larger id |
| `Reassembly.PopKeepsCapped` | crates/daku-client/src/client.rs:80-82 | popping smallest ids is keeping the 64 largest |
| `Reassembly.OtherKindIsIgnored` | crates/daku-client/src/client.rs:363-426 | a chunk of another kind than its transfer was opened with changes nothing |
| `Reassembly.Reader.InsertChunk` | crates/daku-client/src/client.rs:69-84 | registers unless known, evicts the stale series, keeps the largest ids |
| `Reassembly.Reader.IngestChunk` | crates/daku-client/src/client.rs:87-102 | stores one part; hands the transfer over and forgets it when complete |
| `Reassembly.Reader.Assembled` | crates/daku-client/src/client.rs:123-162 | concatenates the parts by ascending index |
| `LastValue.ReplayRestoresCache` | crates/daku-client/src/client.rs:225-244 | folding a replay gives back the cache it was taken from |
| `LastValue.EnvironmentsReplayFirst` | crates/daku-client/src/client.rs:233-235 | only the first replayed message can be an environment list |
| `ClientStream.Reachable` | crates/daku-client/src/client.rs:304-312 | every interleaving of forwards, subscribes, drops and cleanup keeps the stream invariant |
| `ClientStream.NoGap` | crates/daku-client/src/client.rs:225-244 | between forwards each live subscriber's stream folds to the reader's cache |
| `ClientStream.EveryLaterMessageArrives` | crates/daku-client/src/client.rs:304-312 | a subscriber gets a replay and then every later message in order, at most the one in flight twice |
| `ClientStream.NoSenderStaysRegistered` | crates/daku-client/src/client.rs:457-466 | once cleanup cleared the senders none is registered ever after, whichever side of the flag a subscribe fell |
| `ClientStream.EndedHoldsNothing` | crates/daku-client/src/client.rs:465-466 | an ended connection has no cached message and no sender |
| `ClientStream.NothingArrivesAfterTheFlag` | crates/daku-client/src/client.rs:457-466 | from the disconnected flag on every existing stream keeps its content and nothing is forwarded |
| `ClientStream.LateJoinersGetTheReplayOnly` | crates/daku-client/src/client.rs:225-244 | whoever subscribes during cleanup gets the replay of everything forwarded so far, or nothing once the cache is cleared, and nothing after it |
| `ClientStream.EndedConnectionsAreSilent` | crates/daku-client/src/client.rs:225-244 | whoever first subscribes to an ended connection never receives anything |
| `ClientStream.GoneSubscribersAreForgotten` | crates/daku-client/src/client.rs:308-311 | after a fan-out exactly the registered subscribers whose receiver still exists are registered |
| `ClientStream.GoneSubscribersGetNothing` | crates/daku-client/src/client.rs:308-311 | a subscriber that went away receives nothing more in any continuation |
| `ClientStream.SubscriberShowsEverything` | crates/daku-client/src/client.rs:225-244 | between forwards a live subscriber's dashboard shows an always-listed environment as one that saw every message |
| `Delivery.TransferReachesSubscribersOnce` | crates/daku-client/src/client.rs:304-430 | in every interleaving a complete undisturbed transfer is forwarded exactly once, and that whole message is one element of what each live subscriber registered before its completion received after its replay |
| `Delivery.TransferIsForwardedOnce` | crates/daku-client/src/client.rs:355-430 | exactly one forward comes from the transfer's chunks, and it is the whole message |
| `Delivery.RunsAreConnectionRuns` | crates/daku-client/src/client.rs:304-430 | every run with chunks is, for its subscribers, the connection's run fed with the messages the chunks complete, so all results of `ClientStream` hold of it |
| `Delivery.ReceivedIsForwarded` | crates/daku-client/src/client.rs:355-430 | a whole message is forwarded as it is, and a chunk forwards what it completes or nothing |
| `Delivery.Reachable` | crates/daku-client/src/client.rs:313-466 | every interleaving keeps the connection's invariant, and chunks and forwards correspond one to one |
| `Delivery.HandleChunk` | crates/daku-client/src/client.rs:355-430 | reassembles one chunk and forwards the message it completes |
| `ClientStream.CacheValues` | crates/daku-client/src/client.rs:233-235 | walks the cache in key order |
| `ClientStream.ClientInner.RememberLatest` | crates/daku-client/src/client.rs:305-307 | first half of a forward, under the cache lock |
| `ClientStream.ClientInner.SendToSubscribers` | crates/daku-client/src/client.rs:308-311 | second half: sends to every sender and drops those whose receiver is gone |
| `ClientStream.ClientInner.SubscribeDashboard` | crates/daku-client/src/client.rs:225-244 | replay and registration in one critical section; no registration after the flag |
| `ClientStream.ClientInner.ClearSubscribers` | crates/daku-client/src/client.rs:465-465 | cleanup drops every sender |
| `Requests.AnsweredAtMostOnce` | crates/daku-client/src/client.rs:246-274 | once a caller's reply is there no step replaces it |
| `Requests.AnswerIsOwn` | crates/daku-client/src/client.rs:335-346 | a caller that ends with a daemon outcome got one sent under its own id |
| `Requests.NothingLeaks` | crates/daku-client/src/client.rs:246-274 | the table holds only calls under way; a call under way is in it, has been taken by cleanup and is about to be told, or has its reply |
| `Requests.CheckedOrRefused` | crates/daku-client/src/client.rs:246-249 | a call goes ahead while the flag is down and is refused for good once it is up |
| `Requests.SentOrClosed` | crates/daku-client/src/client.rs:257-265 | a registered call waits unless the reader is gone, when it ends as closed and out of the table |
| `Requests.ResponseIsDelivered` | crates/daku-client/src/client.rs:335-346 | a response to a registered call is its reply from then on, one to any other id changes no call |
| `Requests.ReplyIsReceived` | crates/daku-client/src/client.rs:266-268 | a waiting caller whose reply is there ends with that reply for good |
| `Requests.TimeoutsEnd` | crates/daku-client/src/client.rs:269-272 | a caller whose time is up gives up, and after withdrawing ends as timed out and out of the table for good |
| `Requests.EndingsAreFinal` | crates/daku-client/src/client.rs:246-274 | an ended call keeps its ending and never is in the table again |
| `Requests.TakenCallExample` | crates/daku-client/src/client.rs:459-464 | a run with a caller between the take and its own send |
| `Requests.OnlyLateCallsWaitForTheTimeout` | crates/daku-client/src/client.rs:458-464 | once the table is taken, a call under way neither has nor is about to get a reply if and only if it registered afterwards; when the reader has ended, nobody is about to |
| `Requests.LateCallsGetNoReply` | crates/daku-client/src/client.rs:246-274 | such a caller never gets one |
| `Requests.LateCallExample` | crates/daku-client/src/client.rs:247-261 | a run with such a caller |
| `Requests.RequestTable.HandleResponse` | crates/daku-client/src/client.rs:335-346 | removes the entry and sends, or ignores an unknown id |
| `Requests.RequestTable.TakeAllPending` | crates/daku-client/src/client.rs:459-459 | empties the table under its lock |
| `Requests.RequestTable.SendLost` | crates/daku-client/src/client.rs:460-464 | tells one taken caller, with no lock held |
| `Requests.RequestTable.FailAllPending` | crates/daku-client/src/client.rs:458-464 | the take and all sends with no caller in between tell everyone who was in the table |
| `Dashboard.LookupIsCachedUnlessDropped` | src/dashboard_state.rs:537-627 | a stream shows a series as its cache has it, unless a list since then left the environment out |
| `Dashboard.LateSubscriberAgreesIff` | src/dashboard_state.rs:537-627 | a late subscriber sees a series as an early one if and only if it was kept or never cached |
| `Dashboard.LateSubscriberConverges` | src/dashboard_state.rs:537-627 | when all lists name the same ids, replaying the cache gives the environments and every listed series of the whole stream |
| `Dashboard.SameCacheSameDashboard` | src/dashboard_state.rs:537-627 | streams with equal caches show the same for environments they always list |
| `Dashboard.ReturningEnvironmentDiverges` | src/dashboard_state.rs:551-568 | a stream on which late and early subscribers differ |
| `Dashboard.SelectionStaysListed` | src/dashboard_state.rs:537-550 | over any run of messages and choices the selection is a listed environment, or none exactly when nothing is listed |
| `Dashboard.SelectionPersists` | src/dashboard_state.rs:540-550 | the selection moves only when its environment leaves the list or another listed one is chosen |
| `Dashboard.ChoiceSelects` | src/dashboard_state.rs:635-643 | choosing a listed environment selects it and changes nothing else; choosing another one changes nothing |
| `Dashboard.ListKeepsOrReselects` | src/dashboard_state.rs:540-550 | a new list is shown as it is; a selection on it stays, otherwise the first listed environment is selected, or none |
| `Dashboard.LastSnapshotIsHeld` | src/dashboard_state.rs:574-590 | a snapshot with no later one of its signal in the payload is the one held |
| `Dashboard.HeldIsTheLastSnapshot` | src/dashboard_state.rs:574-590 | everything held is such a snapshot |
| `Dashboard.DashboardModel.Apply` | src/dashboard_state.rs:537-627 | one message's effect on all fields |
| `Dashboard.DashboardModel.Select` | src/dashboard_state.rs:635-643 | selects a listed environment only |
| `Trends.TrendIsFaithful` | src/dashboard_state.rs:341-359 | without its breaks a trend is the recorded values in time order, and it never starts with a break |
| `Trends.BreaksMatchGaps` | src/dashboard_state.rs:346-352 | between successive values there is one break for each observation gap over 600 s, so adjacent values have none between them |
| `Trends.ObservationsInTimeOrder` | src/dashboard_state.rs:341-345 | the observations read are the given ones in time order, equal times in their given order |
| `Trends.SparklineWithGaps` | src/dashboard_state.rs:341-359 | sorts by time and builds the trend in one loop |
| `Trends.MergedIsTheMerge` | src/dashboard_state.rs:445-481 | the filtered sort is the one time-ordered merge of both event lists, health rows first on ties |
| `Trends.TimelineShowsTheLatest` | src/dashboard_state.rs:476-485 | the last `limit` matching events in ascending time order, none older than a matching event left out |
| `Trends.FilteringFirstIsTheSame` | src/dashboard_state.rs:476-481 | filtering before the merge gives the same rows |
| `Trends.Timeline` | src/dashboard_state.rs:440-486 | returns the last `limit` rows of the merge, oldest first |
| `Trends.SameSlotIffCongruent` | src/dashboard_state.rs:2299-2304 | two instants share weekday and hour if and only if their hour numbers agree modulo 168 |
| `Trends.CalendarAdvances` | src/dashboard_state.rs:2299-2304 | the epoch is Thursday at hour 0, and an hour or a day later the slot has advanced by one hour or one weekday |
| `Trends.RowsMarkDisagreement` | src/dashboard_state.rs:1673-1681 | some row is marked if and only if two known builds differ, whichever is the reference |
| `Trends.ReferenceSpelledOut` | src/dashboard_state.rs:1669-1681 | the reference is the first clone source's build if known, otherwise the first known build; exactly the rows of other known builds are marked |
| `Trends.StripAgreesWithRows` | src/dashboard_state.rs:1640-1667 | the strip is shown for two environments or more, and then warns if and only if two known builds differ or something other than the first clone source drifted; a warning without drift is marked on some row |
| `Supervisor.BackoffDoublesToCeiling` | crates/daku-client/src/process.rs:21-27 | the doubling step follows min(500 * 2^n, 30000) ms |
| `Supervisor.BackoffCountsFailures` | crates/daku-client/src/process.rs:390-449 | in every run the delay variable is the minimum doubled once, capped, for each failed swap, spawn or dial in the action list since the last recovery |
| `Supervisor.RecoveryResetsTheDelay` | crates/daku-client/src/process.rs:419-430 | right after a healthy poll or an announced client, local or remote, the delay is the minimum again |
| `Supervisor.FailurePauses` | crates/daku-client/src/process.rs:434-443 | the n-th failure in a row pauses for the minimum doubled n - 1 times, capped |
| `Supervisor.ErrorShownUntilReplaced` | crates/daku-client/src/process.rs:427-435 | an error is shown exactly from a failure until the next announced client; a healthy poll does not clear it |
| `Supervisor.AtMostOneChild` | crates/daku-client/src/process.rs:498-528 | never two daemon children, none alive when a spawn begins, none at all for a remote target |
| `Supervisor.AliveUntilItExits` | crates/daku-client/src/process.rs:498-528 | a daemon the supervisor owns is alive unless it exited by itself |
| `Supervisor.ExitedChildrenStayGone` | crates/daku-client/src/process.rs:498-528 | a child that has exited is never alive again |
| `Supervisor.SubscribersFollowTheTarget` | crates/daku-client/src/process.rs:370-379 | each subscriber sees clients in the order they were made, and its latest is the target's except between install and announcement |
| `Supervisor.OnlyTheFirstClientRepeats` | crates/daku-client/src/process.rs:370-379 | each subscriber gets every client at most once, except that the first it gets may come a second time |
| `Supervisor.NewestConnectionTakesOver` | crates/daku-client/src/process.rs:474-526 | the n-th connection made is the target, or waits to be installed, whatever the interleaving |
| `Supervisor.GoneSubscribersAreForgotten` | crates/daku-client/src/process.rs:523-526 | after an announcement exactly the registered subscribers whose receiver still exists are registered |
| `Supervisor.GoneSubscribersGetNothing` | crates/daku-client/src/process.rs:523-526 | a subscriber that went away receives no client in any continuation |
| `Supervisor.EveryBadPollIsActedOn` | crates/daku-client/src/process.rs:404-449 | after a poll that finds the daemon gone, unhealthy or outdated the monitor polls again only once a step of the replacement failed or a new client was announced |
| `Supervisor.RemoteStaysRemote` | crates/daku-client/src/process.rs:453-496 | a remote target never becomes local or restarting |
| `Supervisor.LocalStaysLocal` | crates/daku-client/src/process.rs:390-449 | a local supervisor never dials or becomes remote |
| `Supervisor.Reachable` | crates/daku-client/src/process.rs:370-528 | every interleaving of monitor, subscribers and exiting children keeps the invariant |
| `Supervisor.DaemonSupervisor.TakePrevious` | crates/daku-client/src/process.rs:499-516 | takes the process out under the lock and leaves its client readable |
| `Supervisor.DaemonSupervisor.AnnounceClient` | crates/daku-client/src/process.rs:523-526 | sends the new client to every subscriber and drops those that are gone |
| `Supervisor.DaemonSupervisor.PollTarget` | crates/daku-client/src/process.rs:405-428 | decides under the lock whether to act; a healthy poll resets the delay |
| `Supervisor.DaemonSupervisor.RecordFailure` | crates/daku-client/src/process.rs:434-443 | keeps the error and doubles the delay up to its ceiling |
| `Cadence.SlowEveryIsLeast` | crates/daku-core/src/collector.rs:269-277 | for whole seconds it is the least k with k * interval >= slow interval |
| `Cadence.SlowTicksOfRun` | crates/daku-core/src/collector.rs:327-328 | n ticks run the slow list exactly ceil(n / slow_every) times, at multiples of slow_every |
| `Cadence.TicksFollowEachOther` | crates/daku-core/src/collector.rs:424-428 | two ticks in a row start the interval apart, or the first one's duration if that is longer, plus only what the loop was held up |
| `Cadence.SlowPassesAreApart` | crates/daku-core/src/collector.rs:323-430 | for any durations, overruns and offline pauses: ticks that carry a slow pass start at least the slow interval apart, and their slow lists exactly as far apart as the ticks, plus the later list's delay behind its tick, minus the earlier one's |
| `Cadence.SlowListFollowsTheBarrier` | crates/daku-core/src/collector.rs:331-376 | no slow list starts before every group of its tick has ended and the shared list has run after them, and it starts as soon as that is so |
| `Cadence.SteadySlowListsApartIff` | crates/daku-core/src/collector.rs:394-430 | without offline turns, delays and overruns, two slow lists keep the slow interval if and only if the earlier one's extra delay behind its tick is at most what the ticks between exceed the slow interval by |
| `Cadence.SlowListsCanCrowd` | crates/daku-core/src/collector.rs:60-75 | with a half-hour poll setting, a run whose two slow lists start 100 s closer together than the slow interval |
| `Cadence.SettingsKeepSlowPassesApart` | crates/daku-core/src/collector.rs:60-75 | the same two distances for the intervals any settings give, never faster than thirty seconds |
| `Cadence.CollectorLoop.Run` | crates/daku-core/src/collector.rs:394-430 | the loop's clock is the run of the specification |
| `Cadence.CollectorLoop.TickTimed` | crates/daku-core/src/collector.rs:323-392 | joins every group, then the shared list, then on multiples of slow_every the slow list, whatever failed before; collects their errors and panics in that order and starts each list when the ones before it have ended |
| `Cadence.TickFailsIff` | crates/daku-core/src/collector.rs:346-386 | a tick fails if and only if some list that ran did |
| `Cadence.TickReports` | crates/daku-core/src/collector.rs:343-376 | a tick reports every list's own error text and each panicked list by name, and nothing else |
| `Gate.GateSound` | crates/daku-core/src/collector.rs:162-220 | in every interleaving a gated collector whose stored availability row says asleep or unreachable within 300 s never probes, even if it panics after the gate read, and stores a skip with that reason; any other one that comes to its write, a reachable, stale or unreadable row included, probed and stores what it found |
| `Gate.ErrorsAreIsolated` | crates/daku-core/src/collector.rs:479-487 | a store that does not open and a write that fails hand over to the next collector; only a panic ends a list early |
| `Gate.UnwrittenRowsStay` | crates/daku-core/src/collector.rs:162-220 | in every run the row of a collector that stored nothing this tick is the one it was |
| `Gate.GroupsAreIndependent` | crates/daku-core/src/collector.rs:331-361 | an environment's progress, rows and probes are those of a run in which every other group stands still |
| `Gate.OtherGroupsNeverInterfere` | crates/daku-core/src/collector.rs:331-361 | a step of another group changes none of this environment's rows, probes or progress |
| `Gate.PanicCutsOffItsOwnList` | crates/daku-core/src/collector.rs:346-361 | a panicked group does nothing more and its earlier rows stand |
| `Gate.CollectedOutcome` | crates/daku-core/src/collector.rs:162-220 | one uninterrupted collector stores the skip, read off the availability row itself, or the probe's row |
| `Gate.CollectorThreads.CollectEnvironment` | crates/daku-core/src/collector.rs:162-220 | the branch on the gate, the probe and the write, as four steps of the concurrent model |
| `Gate.CollectorThreads.RunSequential` | crates/daku-core/src/collector.rs:479-487 | runs every collector of the list whatever the earlier ones returned |
| `PluginDiff.DiffPluginInventory` | crates/daku-core/src/drift.rs:523-567 | builds the mismatch list of the two last-wins maps |
| `PluginDiff.LastRecordIsHeld` | crates/daku-core/src/drift.rs:535-542 | a record with no later one of its id is compared |
| `PluginDiff.HeldIsTheLastRecord` | crates/daku-core/src/drift.rs:535-542 | every record compared is such a one |
| `PluginDiff.SortedCoverIsDiff` | crates/daku-core/src/drift.rs:537-566 | whatever order the hash maps are walked in, the sorted list is the same |
| `PluginDiff.DiffIsSortedById` | crates/daku-core/src/drift.rs:565-565 | the list is strictly ascending by id |
| `PluginDiff.DiffEmptyIffEqual` | crates/daku-core/src/drift.rs:523-567 | it is empty if and only if the inventories are equal |
| `PluginDiff.SwappingSidesSwapsEntries` | crates/daku-core/src/drift.rs:523-567 | exchanging the inventories exchanges the sides of every entry |
| `PluginDiff.PatchRoundTrip` | crates/daku-core/src/drift.rs:515-567 | reading the list as edits to the source gives the other inventory if and only if no differing plugin is ambiguous on the other side |
| `PluginDiff.RenderingCollides` | crates/daku-core/src/drift.rs:515-521 | a listed difference whose two sides render alike |
| `DriftPass.ComparedMeans` | crates/daku-core/src/drift.rs:420-451 | expected and unexpected entries are all differing plugins; healthy if and only if builds are not known to differ and the unexpected ones are under the threshold; the list is a prefix of at most 50 and whole unless it says truncated |
| `DriftPass.DriftCollector.CompareWith` | crates/daku-core/src/drift.rs:420-451 | computes that comparison |
| `DriftPass.DriftCollector.ReadInventory` | crates/daku-core/src/drift.rs:108-160 | reuses a fresh entry, otherwise caches only when both pages arrived, then reads the build |
| `DriftPass.DriftCollector.CollectOther` | crates/daku-core/src/drift.rs:162-209 | availability before the missing source, before the comparison |
| `DriftPass.DriftCollector.Collect` | crates/daku-core/src/drift.rs:212-302 | one pass over all environments; a store that does not open ends it, write errors never do |
| `DriftVerdicts.OneVerdictEach` | crates/daku-core/src/drift.rs:212-302 | a pass whose store opens writes exactly one verdict for each environment and none for anything else |
| `DriftVerdicts.EveryVerdictIsDue` | crates/daku-core/src/drift.rs:162-302 | each verdict depends only on configuration, availability rows, that environment's and the source's inventory, not on the order of the pass |
| `DriftVerdicts.StoredVerdictsAreDue` | crates/daku-core/src/drift.rs:212-302 | what ends up stored is the due verdict where the store opened and the write worked and the old one elsewhere; the pass fails if and only if the store did not open or a write failed |
| `DriftVerdicts.HeldTargetsAreSkipped` | crates/daku-core/src/drift.rs:170-190 | an environment whose stored row says asleep or unreachable within 300 s is skipped, never down or compared |
| `DriftVerdicts.HeldInstancesAreNotAsked` | crates/daku-core/src/drift.rs:237-265 | no instance whose stored row says asleep or unreachable within 300 s is sent a request; with such a source, or none, nobody is and the cache stays |
| `DriftVerdicts.RefreshKeepsInventories` | crates/daku-core/src/drift.rs:108-160 | refreshing one environment changes no inventory read later in the pass |
| `DriftVerdicts.PassSteps` | crates/daku-core/src/drift.rs:115-147 | a cached inventory changes only when stale or missing and both pages arrived |
| `DriftVerdicts.UsedInventoryIsRecent` | crates/daku-core/src/drift.rs:108-160 | over any run with forward time, a used inventory was fetched whole from that environment at most 1800 s ago |
| `DriftVerdicts.RefetchesAreSpaced` | crates/daku-core/src/drift.rs:30-32 | two fetches that replaced the cached inventory of one environment are more than 1800 s apart (a failed fetch replaces nothing and may be repeated at once) |
| `DriftReport.ReadingSpelledOut` | crates/daku-core/src/drift.rs:108-160 | the inventory read is the cached one up to 1800 s old, otherwise both pages with plugins first, with the stored build up to two polls old or the fetched one; a failure is that of the first failing request |
| `DriftReport.SkippedPassReports` | crates/daku-core/src/drift.rs:212-263 | without a clone source, alone, or with the source down, every environment's row is the skip with that reason |
| `DriftReport.SourceReports` | crates/daku-core/src/drift.rs:264-282 | a source that is up is reported as source if and only if it can be read, otherwise as down with the failing request's message |
| `DriftReport.TargetReports` | crates/daku-core/src/drift.rs:162-209 | a target is skipped if and only if it is down itself; else it is down when the source or it cannot be read, each with its message; else its row describes the difference from the source's records and build to its own |
| `DriftReport.AskedExactly` | crates/daku-core/src/drift.rs:108-302 | exactly the instances that are read and not served from cache and row are sent requests; a target is up, and read only if the source was |
| `DriftReport.CachedExactly` | crates/daku-core/src/drift.rs:115-147 | after the pass exactly the instances read without a fresh entry, and with both pages, hold this pass's pages; every other entry is unchanged |
| `DevQueue.NoRebuildIsLost` | scripts/dev.ts:135-206 | in every interleaving from a sound start each change is debounced, queued behind a running build, or built by an including build begun after it; builds never overlap |
| `DevQueue.IdleMeansEverythingAttempted` | scripts/dev.ts:169-206 | with nothing pending every change is covered by a finished including build begun after it |
| `DevQueue.IdleMeansLaunchedIff` | scripts/dev.ts:178-200 | at rest every app change is covered by a launch whose build began after it if and only if some app build begun after all app changes succeeded |
| `DevQueue.GoodBuildsReachTheApp` | scripts/dev.ts:169-206 | in every run from a sound start that comes to rest, if no app build failed every app change is covered by such a launch |
| `DevQueue.FailedBuildIsNotRetried` | scripts/dev.ts:178-178 | a run that comes to rest with a change's only build failed |
| `DevQueue.ResumingMakesProgress` | scripts/dev.ts:173-205 | without new changes each resumed await brings the queue closer to idle |
| `DevQueue.LaunchesAreFresh` | scripts/dev.ts:192-200 | an app bundle is launched only if no app change arrived while it was built |
| `DevQueue.NothingStartsAfterStop` | scripts/dev.ts:135-215 | after a stop no change is counted, no build begins and nothing is launched, whatever still settles |
| `DevQueue.StartupIsSoundIff` | scripts/dev.ts:220-238 | after the initial build the queue is sound if and only if an app change arrived or nothing was queued |
| `DevQueue.DaemonEditDuringStartupIsStuck` | scripts/dev.ts:230-232 | a run in which a daemon build stays queued with no build running |
| `DevQueue.NextChangeUnsticks` | scripts/dev.ts:135-149 | the next change's debounce restores soundness |
| `DevQueue.MergedTarget` | scripts/dev.ts:116-121 | the merged target includes both, and is one of them |
| `DevQueue.Watcher.ScheduleBuild` | scripts/dev.ts:135-141 | counts the change and arms the debounce unless stopping |
| `DevQueue.Watcher.OnTimer` | scripts/dev.ts:141-148 | moves the debounced target to the queue and drains |
| `DevQueue.Watcher.AfterBuild` | scripts/dev.ts:178-199 | asks for a relaunch only after a successful fresh app build |
| `Notifications.SelectNotification` | src/notifications.rs:28-51 | records every unseen key and picks the last unseen post-boot health transition |
| `Notifications.PostsIff` | src/notifications.rs:155-197 | a transition is posted if and only if it is new, post-boot, switched on, unmuted, outside quiet hours and its signal is not switched off |
| `Notifications.ChosenIsLast` | src/notifications.rs:46-48 | the pick is fireable and nothing after it is; no pick means nothing was fireable |
| `Notifications.SelectedTwiceMeansForgotten` | src/app.rs:242-259 | a transition selected twice was dropped in between, because its environment was unlisted or 2000 decisions at least as recent were kept |
| `Notifications.SelectedAtMostOnce` | src/app.rs:242-259 | while listed and while the cap evicts nothing a transition is selected at most once in any run |
| `Notifications.MemoryIsBounded` | src/app.rs:248-259 | after every batch at most 2000 keys, all of listed environments |
| `Notifications.ReplayIsSilentIff` | src/app.rs:242-251 | below the cap, and for an unlisted environment also above it, a replayed batch selects nothing if and only if its environment is listed or it held no post-boot health transition |
| `Notifications.UnlistedBatchSelectsTwice` | src/app.rs:248-251 | a batch for an unlisted environment that selects on both deliveries |
| `Notifications.ReplayAboveCap` | src/app.rs:252-259 | above the cap, for a listed environment: silent if every such transition is among the 2000 most recent keys, selecting if one has 2000 newer keys |
| `Notifications.ReplayAboveCapIff` | src/app.rs:252-259 | exactly by that count when no other key shares the transitions' times |
| `Notifications.CapKeepsTheRecent` | src/app.rs:252-259 | a key among the 2000 most recent stays, one with 2000 newer ones goes |
| `Notifications.DroppingOldestCaps` | src/app.rs:252-259 | evicting the head of the time-sorted keys keeps 2000, none older than an evicted one |
| `Notifications.Desktop.NoteHealthEvents` | src/app.rs:242-287 | updates the memory and posts the selected transition exactly when the gate allows; a detached window does nothing |
| `Notifications.OneDigestPerMonday` | src/app.rs:318-339 | however the clock jumps, two digests go out on different Mondays and twenty hours apart |
| `Notifications.DigestSlotAsPublished` | src/notifications.rs:118-120 | the slot is the fifteen hours from nine on each Monday, local time |
| `Notifications.DigestGoesOut` | src/app.rs:318-339 | a digest goes out on a look if and only if it is in the slot, enabled and 72000 s after the last one, and then moves the mark |
| `Notifications.DigestGuard.MaybeSendWeeklyDigest` | src/app.rs:318-339 | sends in the slot when enabled and the guard time has passed, and marks before sending |
| `EnvSheet.ParseU64Decimal` | src/env_sheet.rs:393-399 | every 64-bit number survives decimal print and parse |
| `EnvSheet.ParseU64Edges` | src/env_sheet.rs:393-399 | numbers over 64 bits are refused, a leading plus is accepted |
| `EnvSheet.FieldsReadThroughBlanks` | src/env_sheet.rs:403-456 | blanks around a field's number or its off in any letter case do not matter |
| `EnvSheet.CountRoundTripIff` | src/env_sheet.rs:437-456 | a count survives its field if and only if it is not off or off is the default |
| `EnvSheet.CeilingRoundTripIff` | src/env_sheet.rs:403-434 | exactly which ceilings survive their field |
| `EnvSheet.RoundTripThresholds` | src/env_sheet.rs:508-607 | exactly which of all seventeen thresholds survive the sheet |
| `EnvSheet.ParseThresholds` | src/env_sheet.rs:508-607 | accepts when every field does, with each field's value; otherwise gives the first refused field's error, ceilings before counts |
| `EnvSheet.AvailabilityCeilingKeepsMeaning` | crates/daku-core/src/availability.rs:184-199 | the availability ceiling read back judges every round trip as the one shown |
| `ExpectedDriftText.ParseExpectedDriftText` | src/env_sheet.rs:618-635 | the distinct tokens ascending, or the first token with a blank inside |
| `ExpectedDriftText.CommasAndLineEndsSeparate` | src/env_sheet.rs:618-621 | commas and line ends both separate tokens |
| `ExpectedDriftText.AcceptedIsCanonical` | src/env_sheet.rs:618-635 | an accepted text gives a strictly sorted list of plain ids |
| `ExpectedDriftText.FormatThenParseIff` | src/env_sheet.rs:612-635 | a list survives being shown and read if and only if it is strictly sorted and plain |
| `ExpectedDriftText.ParseIsStable` | src/env_sheet.rs:612-635 | reading, showing and reading again changes nothing |
| `LabelId.DeriveIdFromLabel` | src/env_sheet.rs:753-773 | scans the lower-cased label once; the id is alphanumeric runs joined by single dashes |
| `LabelId.DerivingIsIdempotent` | src/env_sheet.rs:753-773 | exactly the well-formed ids derive to themselves, so deriving twice is deriving once |
| `LabelId.KeepsAlphanumerics` | src/env_sheet.rs:756-764 | without dashes the id is the label's alphanumerics in order |
| `LabelId.DashesMarkSeparators` | src/env_sheet.rs:757-766 | kept characters are joined by one dash exactly when a separator lay between them |

## Left out

- ClientStream: the single automatic resync request per connection, the socket loop and the handshake; a received message is an arbitrary input.
- Requests: the 120 s timeout is a step that may come at any time while a caller waits.
- Reassembly: the u64 width of transfer ids; they are only compared. The 32-bit truncation of the part count is modelled.
- Dashboard: mutes, card selection and the parsing of snapshot payloads; payloads are kept as text.
- Supervisor: the wait loop of `DaemonProcess::stop`, the executable stamp (an arbitrary part of "unhealthy"), and restarts forced from the menu; a spawn either succeeds or leaves nothing behind.
- Gate: sample rows and sample pruning, and the text of errors; a stored row keeps the parts later reads depend on.
- Gate: one tick's groups only; the drift pass takes the rows they left as its input.
- EnvSheet: the captions in error messages; which field was refused first is stated.
- Cadence: wrap-around of the 64-bit tick counter; sub-second intervals are in `SlowEvery` but the spacing results are for whole seconds.
- DriftPass: HTTP and JSON decoding of plugin pages; a page and its truncated flag are an input. i64 saturation of time differences cannot occur for real clocks.
- DevQueue: an exception thrown inside a build, and the launch after an unchanged initial build, which can overlap a rebuild begun while the old app is being stopped.
- Notifications: titles, bodies and delivery; whether it is a quiet hour, which is an input; time-zone changes, as local time is UTC with a fixed offset.
- Trends: rendering of timeline rows, percentages and floating-point means; lower-casing in the query is the arbitrary row predicate.
- LabelId: the lower-casing table outside ASCII is any function without ASCII capitals in its results, one character at a time, so the context rule for a final sigma is not modelled; it never yields ASCII.
- `classify_availability_response` and the payload tables: settled by reading one branch.
- GPUI rendering, menus, SQLite, WebSocket and HTTP transport, Keychain, file permissions, release scripts: shells around the machines above.
