# cgateweb verification

A Dafny model of the stateful core of cgateweb, the bridge between a C-Bus gateway (C-Gate) and MQTT,
with proofs of what that core guarantees over every run. `dafny verify dfyconfig.toml` checks all of it.

Most components come in three parts: a specification (a state, one function per operation, and a
`Run` over arbitrary histories), lemmas about every run, and the source's own class with its fields,
loops, arrays, timers and maps, each method of which is proved equal to the specification's step. Time
is an integer handed in with each event; timers, promises, parse callbacks and broker answers are
events the environment may deliver in any order that their being armed or outstanding allows.

| Component | Files |
|---|---|
| TREEXML session protocol | `tree_protocol`, `tree_invariant`, `tree_guarantees`, `tree_bound`, `tree_worst_case`, `tree_limits`, `tree_stream`, `tree_status`, `tree_timers`, `tree_session` |
| Discovery topic bookkeeping | `discovery_spec`, `discovery_guarantees`, `discovery_results`, `discovery_payloads`, `discovery_unlisted`, `discovery_status`, `discovery`, `discovery_names` |
| Throttled priority queue | `throttled_queue_spec`, `throttled_queue_guarantees`, `throttled_queue_classes`, `throttled_queue` |
| Serial recovery budget | `serial_recovery`, `serial_moves`, `backoff` |
| Security panel and alarm | `panel_alarm`, `panel_modes`, `security_panel` |
| Tree signature, unit classification | `tree_data`, `tree_signature`, `tree_signature_guarantees`, `unit_classifier`, `tree_classification`, `unit_families`, `letters` |
| Line assembly | `line_spec`, `line_processor`, `line_closing` |
| Event parsing | `cbus_event_spec`, `cbus_event_round_trip`, `cbus_event_lines`, `cbus_event`, `decimal` |
| Event publisher, MQTT replay and status | `event_publisher_spec`, `event_publisher`, `mqtt_pending`, `insertion_map`, `bridge_status` |
| Cover ramps, event log ring | `cover_ramp_spec`, `cover_ramp`, `event_log` |

The central results:

- **TREEXML session.** Seen from one network, every step of the whole protocol is one of a dozen local
  moves (`StepProjects`), and the per-network invariant survives them all. Outstanding requests always
  have an armed releaser; one request costs at most `(maxRetries + 1) * (maxResyncs + 1)` commands over
  every interleaving, and a concrete run reaches that number. Whatever reaches the parser is one whole stream
  in the order it came, and belongs to the request sent longest ago (`ParserSeesStreams`, `StartAnswersOldest`).
  The class keeps real timer handles and is proved to refine the protocol.
- **Discovery topics.** After every history whose tree runs are sound (no zone takes back what a group of the
  same run announces) the session's topic set, the replay cache and the broker agree, and `BooksIffSound` says
  that soundness is exactly what it takes; a tree run leaves its own topics plus event-driven ones and touches
  no other network; a broker restart followed by a replay is invisible, whatever happened in between.
- **Queue.** Conservation, per-class FIFO, drop order, the size bound, no lost wakeup, and draining in
  service order; the arrays with head indices refine four plain sequences and bound their garbage.
- **Lines.** However a stream is cut into chunks and whichever callbacks throw, what was delivered and what is
  still to deliver is the split of the whole stream.
- **Recovery budget.** The script runs exactly if the device is gone or has moved from the port last known to
  work and there is budget, told from the polls alone (`RunsIffMoved`); no window as wide as the stable window
  holds more than the configured number of charged runs, however the interface flaps.

Some guarantees one might expect do not hold of the code. Each comes with an input that shows it and the
exact condition under which it does hold:

- Removing a network keeps the protocol's invariant only if its tree is not streaming or being parsed
  (`RemovalKeepsIff`); the other networks keep theirs whenever it is removed (`SparingRunKeeps`). Because
  removal forgets the parse epoch, a stale first tree can strand the request made after re-creation, exactly
  when the epoch was 1 (`StaleTreeStrandsRequest`). The bridge asks C-Gate for a network `unknown` nobody
  requested exactly when a stray stream stalls with retries left (`UnknownIsRetriedIff`); each stray start adds at most, and at worst exactly, maxRetries commands
  (`SendsBounded`, `StrayCostIsReached`). Not every discovering network is settled: a dropped stream leaves
  it neither resolved nor paused (`LiveUntilSettled`).
- `clear()` during a deferred item gives up single flight (`SingleFlightIff`, `ClearMidItemOverlaps`).
- The comment at src/serialDeviceRecovery.js:224-225 says the cap holds during a sustained outage. It does for
  an outage that begins after the millisecond of the last up poll (`OutageFromUpIsCapped`). A run charged in
  that very millisecond is one too many (`UpMillisecondBuysAnotherRun`), never more than one
  (`OutageOverrunsByOneAtMost`), and possible exactly if there is budget for it just then
  (`OutageCanOverrunIff`).
- Although the comment at src/securityPanelState.js:435 says arm_ready never downgrades, after
  `forgetAlarmState` it reports a live panel as disarmed (`ForgettingUnprotects`); `ReportsDisarmedIff` says
  for every entry when a step reports disarmed, and `DisarmedIffExposed` when a run does. Arming does not clear
  the state remembered from an earlier alarm (`ArmingKeepsStaleMemory`); `AlarmOffDisarmsIff` says when
  alarm_off then shows an armed panel disarmed.
- A discovery run that throws, wherever it does, leaves the books right exactly if everything its groups had
  announced was already in the session's set or its zones dealt with it (`AbortKeepsIff`). Removing a network
  does not forget that its event-driven entities were announced: seeing one again announces it exactly if it had
  never been announced or the last event concerning it was a label that went away (`RemovedEntityReturnsIff`,
  `UnconcernedEntityReturnsIff`); a changed label announces it at once (`RelabellingReturns`). A new excluded
  security zone at the address of a group that the same run announces as a binary sensor takes that sensor back,
  and the session still counts it as published (`ClashBreaksBooks`); `SharedZonesIff` says that nothing else
  breaks the books.
- Closing a line processor twice delivers the buffered rest once exactly if the callback does not throw on it
  (`ClosesOnceIff`). Closing takes all that is pending as one line: after a last call that a throw cut short, the
  stream comes out split exactly if no more than one line was pending, or no delimiter at all where it is not
  white space trimmed away (`ClosedStreamIsSplitIff`); otherwise the pending lines run together
  (`PendingLinesRunTogether`).
- `add()` with a priority that names something every object inherits, such as `constructor`, throws after it has
  made room for an item it never queues, exactly then (`QueuedIff`).
- `compareTreeIds` goes in circles on exactly the triples `Knotted` describes (`CycleIffKnotted`), and sorting
  with it is independent of the input order exactly for sets of ids without such a triple and without two
  spellings of one number (`OrderIsIrrelevantIff`). The signature's guarantees are about such ids; canonical
  decimals are always among them (`DecimalIsRegular`). Outside them they fail: the order of a unit's groups
  leaves its signature alone exactly if its ids are such ones (`SignatureIgnoresOrderIff`).
- The retained bridge status is true throughout a run, and would be after a reconnect, exactly if in it no old
  connection's will arrives while the bridge is ready and the broker does not forget the status remembered as
  sent (`TruthIffHarmless`); a late will then stays (`LateWillStays`).

## Model

| member | source | states |
|---|---|---|
| `TreeInvariant.StepProjects` | src/haDiscoveryTreeSession.js:95-645 | Seen from any one network, every step of the whole protocol except a removal or stop is one local move that was possible there |
| `TreeInvariant.MoveKeeps` | src/haDiscoveryTreeSession.js:95-645 | Every local move keeps the per-network invariant: outstanding in at most one way, watchdog exactly while queued, retry only when not in flight, one fresh callback exactly while parsing, budgets within caps |
| `TreeInvariant.SparingStepProjects` | src/haDiscoveryTreeSession.js:95-645 | So is every step that spares network n, taking no more than n's own invariant: the others may have been removed at any moment, even while their trees stream |
| `TreeInvariant.SparingRunKeeps` | src/haDiscoveryTreeSession.js:95-645 | Over every run in which other networks may be removed at any moment, a network's own invariant holds |
| `TreeGuarantees.StepKeeps` | src/haDiscoveryTreeSession.js:95-645 | Every step that is not a removal or stop keeps the invariant for all networks at once, and the stream deadline is armed exactly while a session is open |
| `TreeGuarantees.RunKeeps` | src/haDiscoveryTreeSession.js:95-645 | The invariant holds in every state reachable without removals or shutdown, over every interleaving of requests, responses, timers and callbacks |
| `TreeGuarantees.InvariantShape` | src/haDiscoveryTreeSession.js:95-645 | In every such state: no network queued twice; queued, streaming and parsing exclude each other; watchdogs for exactly the queued networks; stall timer exactly while a session is open; retries only out of flight; budgets within caps |
| `TreeGuarantees.OutstandingHasReleaser` | src/haDiscoveryTreeSession.js:104-132 | No outstanding request can wedge the in-flight guard: a watchdog, stall timer or parse callback that will release it is armed |
| `TreeGuarantees.ReleaserReleases` | src/haDiscoveryTreeSession.js:120-129 | When that timer or callback arrives, whatever the parse outcome, the network is no longer in flight |
| `TreeGuarantees.LiveUntilSettled` | src/haDiscoveryTreeSession.js:191-231 | A live network stops being live exactly when its tree is accepted, its retries run out, or its stream is dropped without a retry |
| `TreeGuarantees.ExhaustedIsPaused` | src/haDiscoveryTreeSession.js:191-213 | A network whose retries run out is out of flight, without watchdog or retry, and published as paused |
| `TreeBound.MovePays` | src/haDiscoveryTreeSession.js:191-281 | Every move but an outside request or a stray start pays for its TREEXML out of a potential made of the re-fetch and retry budgets |
| `TreeBound.SendsBounded` | src/haDiscoveryTreeSession.js:191-281 | Over any run in which nobody asks for network n, unknown included, and other networks may be removed, the commands sent for n never exceed its potential at the start, plus, for unknown, maxRetries for each stray start |
| `TreeBound.OneRequestIsBounded` | src/haDiscoveryTreeSession.js:191-281 | One request for an idle network costs at most (maxRetries+1)*(maxResyncs+1) commands over every run, for unknown maxRetries+1 plus maxRetries for each stray start |
| `TreeBound.UnaskedIsSilent` | src/haDiscoveryTreeSession.js:95-132 | A network at rest that nobody asks for costs nothing over every run; for unknown, as long as no stream strays in |
| `TreeWorstCase.BudgetIsReached` | src/haDiscoveryTreeSession.js:191-281 | For every network and every setting a run from a fresh start reaches exactly that number, so the bound cannot be lowered |
| `TreeWorstCase.WorstRun` | src/haDiscoveryTreeSession.js:191-281 | From any waiting state the remaining retries and re-fetches can all be spent, each on one send |
| `TreeStream.StreamHoldsData` | src/haDiscoveryTreeSession.js:383-471 | Over every run at all: a session is open exactly if the events since the last start, end or stall opened one, and it holds exactly the data that came since, in order |
| `TreeStream.EndParsesReceived` | src/haDiscoveryTreeSession.js:473-535 | The end of a stream starts a parse exactly if data came for a known network, and the text is that data, each line ended by a newline |
| `TreeStream.ParserSeesStreams` | src/haDiscoveryTreeSession.js:473-535 | Over every run, every text with the parser is what some one end of a stream found received since that stream began |
| `TreeStream.DocumentLines` | src/haDiscoveryTreeSession.js:494-495 | Splitting the text at newlines gives back the lines that came |
| `TreeStream.DataRearms` | src/haDiscoveryTreeSession.js:462-471 | From whatever state, data restarts the stall timer of the session it goes to |
| `TreeStream.StartAnswersOldest` | src/haDiscoveryTreeSession.js:383-390 | Over every run, a stream that begins while requests wait belongs to the one sent longest ago, and only that one stops waiting |
| `TreeStatus.CommandIff` | src/haDiscoveryTreeSession.js:95-132 | From every state, a step sends TREEXML exactly if its event asks for a network, by hand, in scope, or by a timer, whose tree is not outstanding |
| `TreeStatus.DisregardedIff` | src/haDiscoveryTreeSession.js:178-189 | A network out of scope changes nothing, and a refusal changes something exactly if it is a 401 Network not found without an object path while a request waits |
| `TreeStatus.StatusFollows` | src/haDiscoveryTreeSession.js:327-381 | From every state: asking publishes discovering, an accepted tree resolved, a failure beyond the retries paused, removal and shutdown forget, and nothing else changes a status |
| `TreeStatus.LiveIsDiscovering` | src/haDiscoveryTreeSession.js:327-381 | Over every run that does not remove it, a network outstanding or waiting for a retry is published as discovering |
| `TreeLimits.RemovalKeepsIff` | src/haDiscovery.js:387-398 | Removing a network keeps the invariant if and only if its tree is not streaming or being parsed just then |
| `TreeLimits.StopKeepsIff` | src/haDiscoveryTreeSession.js:306-320 | stop() keeps the invariant if and only if no request is queued and no stream is open |
| `TreeLimits.StopSilences` | src/haDiscoveryTreeSession.js:306-320 | After any run whatever, removals included, stop() leaves no timer armed |
| `TreeLimits.ExhaustedIsSilent` | src/haDiscoveryTreeSession.js:201-213 | A network nobody asks for while its re-fetch timer runs is left with no timer at all when its retries run out |
| `TreeLimits.PausedWithRefetchPending` | src/haDiscoveryTreeSession.js:95-132 | For every setting: asked for while its re-fetch timer runs, a network whose fetches all time out is paused with that timer still armed |
| `TreeLimits.StaleTreeStrandsRequest` | src/haDiscovery.js:391-398 | Removal forgets the parse epoch: a stale first tree then cancels the watchdog of the request made after re-creation, exactly when the epoch was 1 |
| `TreeLimits.UnknownIsRetriedIff` | src/haDiscoveryTreeSession.js:383-449 | With unknown neither requested nor waiting, one step arms a retry for it if and only if a stray stream stalls with retries left, and that retry sends TREEXML for unknown |
| `TreeLimits.WithoutStallsUnknownIsSilent` | src/haDiscoveryTreeSession.js:383-449 | Over every run without such a stall nothing is ever sent for unknown |
| `TreeWorstCase.StrayCostIsReached` | src/haDiscoveryTreeSession.js:191-231 | For every setting one stray start can cost exactly maxRetries commands for unknown |
| `TreeTimers.ArmedIffLive` | src/haDiscoveryTreeSession.js:143-166 | A timer the protocol regards as armed is exactly one live timer of the event loop, held by the record that can cancel it |
| `TreeTimers.TimersRunFor` | src/haDiscoveryTreeSession.js:118-246 | Every live timer was armed with its own delay: the request timeout, the stall time, or for the k-th retry or re-fetch in a row the initial delay doubled k-1 times within the maximum |
| `TreeTimers.OneDeadline` | src/haDiscoveryTreeSession.js:439-460 | At most one stall timer is live, and it is the one on record |
| `TreeSessions.TreeSession.QueueTreeRequest` | src/haDiscoveryTreeSession.js:95-132 | Cancels a pending retry, keeps the attempt count and sends TREEXML under a new epoch with a watchdog, unless one is in flight |
| `TreeSessions.TreeSession.HandleCommandError` | src/haDiscoveryTreeSession.js:178-189 | A 401 Network not found without an object path fails the oldest queued request; anything else changes nothing |
| `TreeSessions.TreeSession.HandleTreeRequestFailure` | src/haDiscoveryTreeSession.js:191-231 | Retries after the backoff for the attempt count, or pauses the network once its retries are spent |
| `TreeSessions.TreeSession.ScheduleTreeResync` | src/haDiscoveryTreeSession.js:247-281 | Arms one more re-fetch and remembers the signature, or gives up at the cap |
| `TreeSessions.TreeSession.ClearTreeState` | src/haDiscoveryTreeSession.js:143-153 | Cancels watchdog and retry, and the stall timer only if the open session is this network's |
| `TreeSessions.TreeSession.HandleTreeStart` | src/haDiscoveryTreeSession.js:383-418 | 343: the head of the queue starts streaming under a stall timer, whatever session was open |
| `TreeSessions.TreeSession.HandleTreeData` | src/haDiscoveryTreeSession.js:462-471 | 347: appends the data, opening a session first if there is none, and re-arms the stall timer |
| `TreeSessions.TreeSession.HandleTreeEnd` | src/haDiscoveryTreeSession.js:473-645 | 344: an empty or unowned stream is dropped without a retry; otherwise its parse starts, or fails if the parser throws. Without an open session the network and buffer a caller set stand in for one |
| `TreeSessions.TreeSession.OnTreeParsed` | src/haDiscoveryTreeSession.js:528-627 | A callback under a stale epoch only ends the parse; otherwise it fails, or accepts the tree |
| `TreeSessions.TreeSession.AcceptTree` | src/haDiscoveryTreeSession.js:578-620 | Resolves the network and schedules a re-fetch exactly when units are unsynced, the tree changed and the budget allows |
| `TreeSessions.TreeSession.OnTimer` | src/haDiscoveryTreeSession.js:115-129 | Any live timer that fires performs exactly the protocol step its closure stands for, and that step was enabled |
| `TreeSessions.TreeSession.OnStreamStall` | src/haDiscoveryTreeSession.js:439-449 | A stalled stream gives up the open session, or the network it was armed for, and fails its fetch |
| `TreeSessions.TreeSession.HandleNetworkSyncComplete` | src/haDiscovery.js:364-377 | In scope, renews the re-fetch budget and requests the tree |
| `TreeSessions.TreeSession.HandleNetworkRemoved` | src/haDiscovery.js:387-398 | Cancels the network's timers and forgets its request, re-fetch, epoch, parse and queue entries |
| `TreeSessions.TreeSession.Stop` | src/haDiscoveryTreeSession.js:306-320 | Cancels every timer on record and the stall timer, and forgets the statuses |
| `DiscoveryResults.BooksAgree` | src/haDiscovery.js:49-58 | After every history of complete sound runs, announcements, label changes and removals, the session's topic set is exactly its retained configs bar the status sensors, and the replay cache is the broker's content |
| `DiscoveryResults.TreeRunResult` | src/haDiscovery.js:549-574 | After a run for network n: the books are right if and only if its zones took back none of its own topics; those not taken back are retained, anything else of n is event-driven, event-driven topics survive unless this run took them back, and no other network's topic or payload changes |
| `DiscoveryGuarantees.EnsureAllMoves` | src/haDiscoveryPublishers.js:699-713 | The announcements of a run change cache, broker and both sets by one net effect: what was announced last wins, what was taken back last is gone |
| `DiscoveryGuarantees.FinishRunResult` | src/haDiscovery.js:549-574 | The sweep and merge at the end of a run leave the books right exactly when no announcement in it took back a topic of the run set |
| `DiscoveryResults.StepKeepsIff` | src/haDiscovery.js:49-58 | One event of any kind keeps books and broker in agreement if and only if it is not a tree run whose zones take back what its groups announced |
| `DiscoveryResults.BooksIffSound` | src/haDiscovery.js:49-58 | Over whole histories: the books are right after every event if and only if no tree run in them had zones that took back what its groups announced |
| `DiscoveryPayloads.RunRetainsPayloads` | src/haDiscovery.js:466-574 | Every topic a run's groups or zones dealt with is cached and retained exactly as the zones' effect on the groups' payloads says: a zone's payload wins, a topic taken back is gone, every other one has its group's payload |
| `DiscoveryPayloads.ProcessGroupsCache` | src/haDiscoveryPublishers.js:358-674 | Processing the groups of a tree takes the cleared topics out of the cache and puts the announced payloads in, as one equation |
| `DiscoveryResults.RemovalResult` | src/haDiscovery.js:400-421 | A removed network leaves nothing the session announced, not even its status sensor; other networks keep theirs |
| `DiscoveryResults.RestartIsInvisible` | src/haDiscovery.js:171-181 | The broker loses everything, any events at all follow, the cache is replayed: the broker holds exactly the payloads it would hold without the restart |
| `DiscoveryResults.BrokerIsCache` | src/haDiscovery.js:51-58 | After any history from the start of a process the broker holds exactly the replay cache |
| `DiscoveryResults.RunKeeps` | src/haDiscovery.js:49-58 | The books and the broker stay in agreement over every sound history, also while the broker has lost messages |
| `DiscoveryResults.AbortKeepsIff` | src/haDiscovery.js:452-462 | A run that throws among its groups, its zones, in the middle of a zone or in the sweep leaves the books right if and only if everything its groups had announced was already in the session's set or its zones dealt with it |
| `DiscoveryResults.StopKeepsIff` | src/haDiscoveryTreeSession.js:319 | stop() leaves the books right if and only if no status sensor had been announced |
| `DiscoveryResults.SharedZonesIff` | src/haDiscovery.js:632-652 | For security zones at distinct addresses: the books are right after a run if and only if no new excluded zone has the address of a group announced as a binary sensor |
| `DiscoveryResults.SingleZoneIff` | src/haDiscoveryPublishers.js:699-713 | For any one announcement in the run: the books are right unless it is excluded, new, and takes back a topic the groups announced |
| `DiscoveryResults.ZonesTakeBack` | src/haDiscoveryPublishers.js:1228-1235 | Zones of distinct addresses do not disturb each other: what a run's zones take back is what each new excluded zone takes back, its sensor and its loop-fault sensor |
| `DiscoveryResults.ClashBreaksBooks` | src/haDiscoveryPublishers.js:1228-1235 | A motion sensor in the tree and an excluded zone label for its address: the sensor counts as published but is neither cached nor retained |
| `DiscoveryResults.RemovedEntityReturnsIff` | src/haDiscoveryPublishers.js:699-713 | After a removal and any events whatever, seeing an entity does something if and only if it is forgotten: never announced, or the last event concerning it was a label that went away; then, unless excluded, it is announced with all its payloads |
| `DiscoveryResults.UnconcernedEntityReturnsIff` | src/haDiscoveryPublishers.js:699-713 | After a removal and events about other entities only, seeing an entity does something if and only if it had never been announced |
| `DiscoveryResults.RelabellingReturns` | src/haDiscovery.js:215-244 | A changed label announces the entity at once; a label that went away makes the next sighting announce it |
| `DiscoveryResults.RemovedEntityStaysSilent` | src/haDiscoveryPublishers.js:699-713 | After a removal, whatever happens short of a label going away, seeing an already announced entity again publishes nothing |
| `DiscoveryUnlisted.UnlistedIsTakenIff` | src/haDiscoveryPublishers.js:899-962 | Over every history: a sighting changes anything if and only if both settings are on, its application has an entity type, no tree run has listed the address and no such sighting of it came before |
| `DiscoveryUnlisted.TakenIsAnnounced` | src/haDiscoveryPublishers.js:930-950 | Unless the group is excluded, its topics are then cached, retained, published and event-driven |
| `DiscoveryUnlisted.TakenInsideRun` | src/haDiscoveryPublishers.js:951-956 | Inside a run its topics become that run's, and event-driven as soon as one of them is new |
| `DiscoveryUnlisted.AnnouncedSurvivesRun` | src/haDiscovery.js:549-574 | What a sighting announced outlives the next tree run of any network, unless that run has a group at the address or a zone that takes the topic back |
| `DiscoveryStatus.SensorIsHistory` | src/haDiscoveryTreeSession.js:327-381 | Over every history: a network's status sensor is announced exactly if a status was heard since the network was last removed, with the payload of the first one; with discovery off, never |
| `DiscoveryResults.ZoneIsTwoSensors` | src/haDiscoveryPublishers.js:1228-1235 | The first sighting of a security zone announces its two sensors apart with a payload each, or takes both back if it is excluded |
| `DiscoveryGuarantees.LightsAreLighting` | src/haDiscoveryPublishers.js:514-640 | A light is announced and taken back on application 56 only, and taken back there by every outcome that is neither excluded nor a light |
| `DiscoveryGuarantees.ActionsAreApart` | src/haDiscoveryPublishers.js:514-640 | All topics of a group are its own, and no outcome clears what it announces |
| `DiscoveryGuarantees.ProcessGroupsKeeps` | src/haDiscoveryPublishers.js:358-674 | Groups with distinct addresses never clear each other's topics: the run set is exactly what they announce and the books stay right |
| `DiscoveryGuarantees.EnsureKeeps` | src/haDiscoveryPublishers.js:699-713 | An announcement keeps the books, touches only its network, and leaves every topic it adds marked event-driven |
| `DiscoveryNames.MarkerIsNetwork` | src/haDiscovery.js:402-408 | Searching a config topic for /cgateweb_N_ succeeds exactly for network N, or if the configured prefix or the rest of the unique id contains that marker |
| `DiscoveryNames.StatusSensorHasNoMarker` | src/haDiscovery.js:414-419 | The status sensor's topic carries no network marker unless the configured prefix does, so it needs its own retraction |
| `Discovery.HaDiscovery.Publish` | src/haDiscovery.js:51-58 | Records or forgets the payload for replay and hands it to the broker |
| `Discovery.HaDiscovery.RepublishDiscoveryConfigs` | src/haDiscovery.js:171-181 | Publishes every cached config once: the broker then holds the cache over whatever else it had |
| `Discovery.HaDiscovery.ProcessGroup` | src/haDiscoveryPublishers.js:371-419 | One group announces and clears exactly what its outcome says, in order |
| `Discovery.HaDiscovery.PublishTrigger` | src/haDiscoveryPublishers.js:1883-1890 | A trigger group announces its event entity, its button and, if enabled, its scene |
| `Discovery.HaDiscovery.FinishTreeEntity` | src/haDiscoveryPublishers.js:1046-1050 | Publishes and records the topic on the current run |
| `Discovery.HaDiscovery.FinishEventDrivenEntity` | src/haDiscoveryPublishers.js:1071-1083 | Publishes and records the topic for the session and as event-driven |
| `Discovery.HaDiscovery.RetractEventDrivenConfig` | src/haDiscoveryPublishers.js:1551-1555 | Clears the topic and drops it from both sets and the cache |
| `Discovery.HaDiscovery.ClearStaleInputBinarySensorConfig` | src/haDiscoveryPublishers.js:634-640 | Clears the binary sensor of a group that is a light, only with the feature on |
| `Discovery.HaDiscovery.EnsureEventDrivenEntity` | src/haDiscoveryPublishers.js:699-713 | Announces a new key once, or retracts an excluded one, and records it either way |
| `Discovery.HaDiscovery.EnsureUnlistedGroupDiscovery` | src/haDiscoveryPublishers.js:899-962 | Announces an unlisted group once and promotes its topics onto the session and event-driven sets |
| `Discovery.HaDiscovery.RunDiscoveryFromTree` | src/haDiscovery.js:466-574 | Processes all groups, then the labelled zones, then sweeps and merges |
| `Discovery.HaDiscovery.FinishRun` | src/haDiscovery.js:549-574 | Clears the stale topics of this network and merges the run's topics |
| `Discovery.HaDiscovery.HandleNetworkRemoved` | src/haDiscovery.js:400-421 | Clears the network's topics and its status sensor |
| `Discovery.HaDiscovery.SetDiscoveryStatus` | src/haDiscoveryTreeSession.js:327-381 | Announces the status sensor once per network |
| `Discovery.HaDiscovery.RepublishRenamedSecurityZone` | src/haDiscovery.js:215-244 | Forgets that a relabelled zone was announced and announces it again |
| `QueueGuarantees.RunKeeps` | src/throttledQueue.js:56-225 | FIFO per class, conservation, the size bound and wakefulness hold in every reachable state |
| `QueueGuarantees.NothingLostOrInvented` | src/throttledQueue.js:56-225 | added = processed + dropped + cleared + queued, as multisets, over every run |
| `QueueGuarantees.TakesServiceOrder` | src/throttledQueue.js:155-163 | Dequeue takes the oldest item of the highest non-empty class and leaves the rest in order |
| `QueueGuarantees.DropsSacrificeOrder` | src/throttledQueue.js:193-208 | Overflow drops the oldest item of the lowest non-empty class and nothing else |
| `QueueGuarantees.AddedBehindItsClass` | src/throttledQueue.js:56-73 | A new item is served after everything at least as important and before everything less important |
| `QueueGuarantees.SingleFlightIff` | src/throttledQueue.js:218-225 | Single flight survives every step except a clear() while an item is in flight |
| `QueueGuarantees.RunsOneAtATime` | src/throttledQueue.js:75-124 | Items are processed one at a time over every run that never clears mid-item |
| `QueueGuarantees.ClearMidItemOverlaps` | src/throttledQueue.js:218-225 | After such a clear the next deferring item runs beside the one still in flight |
| `QueueGuarantees.DrainsInOrder` | src/throttledQueue.js:75-146 | With no new adds and an open gate, k steps serve exactly the first k items in service order, and n items take n steps |
| `QueueGuarantees.QueuedIff` | src/throttledQueue.js:56-73 | A call queues its item exactly when its priority, in lower case, is not the name of an inherited property; otherwise it throws, having cost a full queue the item it sacrifices first |
| `QueueGuarantees.ReportsCountDrops` | src/throttledQueue.js:193-208 | Over every run the reports are those of the first drop and of each full hundred, in order, and no others |
| `QueueClasses.NameDecidesClass` | src/throttledQueue.js:210-216 | For every option: the item joins exactly the class it names in whatever case, the normal one if it names none, and none if it names an inherited property |
| `QueueClasses.NameDecidesPlace` | src/throttledQueue.js:56-73 | On a running queue a critical item is served before everything less important, an interactive one before all normal and bulk ones, a bulk one last |
| `QueueClasses.IdleServesAtOnce` | src/throttledQueue.js:63-67 | On an idle queue, fresh or run dry, an item is processed within the call that adds it |
| `QueueClasses.DrainIsPaced` | src/throttledQueue.js:126-146 | Without usable dynamic intervals the items of a backlog leave exactly intervalMs apart |
| `QueueClasses.DrainFollowsAnswers` | src/throttledQueue.js:126-135 | With them, each answer is exactly the wait before the next item |
| `QueueClasses.GateOnlyDelays` | src/throttledQueue.js:84-87 | A closed gate costs a waiting queue the blocked delay and changes nothing else |
| `ThrottledQueues.SlotsBounded` | src/throttledQueue.js:175-191 | Each backing array is empty or holds fewer than max(live+64, 2*live) slots |
| `ThrottledQueues.TakeRefines` | src/throttledQueue.js:175-191 | Consuming a head slot, with reset and compaction, removes exactly the oldest item of that lane |
| `ThrottledQueues.ThrottledQueue.Add` | src/throttledQueue.js:56-73 | Makes room if full, appends to the class the name stands for, and starts or re-arms the scheduler; an inherited name throws once room is made |
| `ThrottledQueues.ThrottledQueue.Process` | src/throttledQueue.js:75-115 | Idles when empty, waits at a closed gate, else takes one item and waits for its promise or schedules the next |
| `ThrottledQueues.ThrottledQueue.FinishProcess` | src/throttledQueue.js:117-124 | Ends the item and re-arms the timer only while active |
| `ThrottledQueues.ThrottledQueue.DequeueOneItem` | src/throttledQueue.js:155-163 | Returns the head of the first non-empty class |
| `ThrottledQueues.ThrottledQueue.DropOneItem` | src/throttledQueue.js:193-208 | Drops the head of the last non-empty class and reports the first drop and every hundredth |
| `ThrottledQueues.ThrottledQueue.TakeFromQueue` | src/throttledQueue.js:175-191 | Clears the slot in place, advances, resets or compacts, and keeps the array bound |
| `ThrottledQueues.ThrottledQueue.OnTimer` | src/throttledQueue.js:137-146 | The armed timer runs one processing step |
| `ThrottledQueues.ThrottledQueue.OnSettled` | src/throttledQueue.js:96-124 | A settled promise finishes the item, whichever way it settled |
| `ThrottledQueues.ThrottledQueue.Clear` | src/throttledQueue.js:218-225 | Empties every lane and the scheduler, keeping promises in flight |
| `Backoff.DelayIsNthWait` | src/backoff.js:13-24 | The delays are fixed by the first and by doubling within the cap |
| `Backoff.BackoffDelayGrows` | src/backoff.js:13-24 | A later retry never waits less than an earlier one and never more than the cap |
| `SerialRecovery.WindowHoldsAtMost` | src/serialDeviceRecovery.js:222-266 | However the interface flaps, no window as wide as the stable window holds more than maxAttempts charged runs |
| `SerialRecovery.RunsStayBounded` | src/serialDeviceRecovery.js:208-276 | Any maxAttempts+1 consecutive charged runs span at least the stable window, over every run of polls |
| `SerialRecovery.RunsAreSpaced` | src/serialDeviceRecovery.js:241-259 | Successive runs either carry the count on after its backoff, or restart it a stable window later |
| `SerialRecovery.OutageIsCapped` | src/serialDeviceRecovery.js:222-239 | From its first run on, while the interface is not seen up since that run, an outage charges no more than the budget left |
| `SerialRecovery.OutageFromUpIsCapped` | src/serialDeviceRecovery.js:222-239 | From its first down poll on, an outage none of whose polls falls into the millisecond of the last up poll charges at most maxAttempts runs |
| `SerialRecovery.OutageOverrunsByOneAtMost` | src/serialDeviceRecovery.js:222-239 | Any outage at all charges at most maxAttempts + 1 runs |
| `SerialRecovery.OutageCanOverrunIff` | src/serialDeviceRecovery.js:222-239 | From just after an up poll some outage exceeds the cap if and only if there is budget for a run in that same millisecond |
| `SerialRecovery.UpMillisecondBuysAnotherRun` | src/serialDeviceRecovery.js:229-232 | A run charged in the millisecond of the last up poll can be followed by maxAttempts more without the interface ever being up |
| `SerialRecovery.ExhaustedRunsAgainIff` | src/serialDeviceRecovery.js:227-239 | A spent budget allows another run exactly when an up poll is no older than the last attempt and that is a stable window ago |
| `SerialRecovery.SameMillisecondBuysAnotherRun` | src/serialDeviceRecovery.js:229-232 | For every cap, from a fresh start: up and down in one millisecond, then down for good, charges maxAttempts + 1 runs |
| `SerialMoves.RunsIffMoved` | src/serialDeviceRecovery.js:169-276 | Over every run of polls: a down poll runs the script if and only if recovery is on for a local device, the device is gone or at another port than the one last known to work, and the runs so far leave budget; a device that has not moved causes neither run nor report |
| `SerialMoves.RecordIsHistory` | src/serialDeviceRecovery.js:290-327 | The port in use is the latest of what an up poll read and what was found after a run that succeeded |
| `SerialMoves.FirstReport` | src/serialDeviceRecovery.js:178-203 | What a down poll reports first: a path it could not examine, a device gone, or the port now and the one that last worked |
| `SerialMoves.SecondReport` | src/serialDeviceRecovery.js:234-283 | What follows the first report: the budget is spent, the wait left in seconds rounded up with how much is gone, or how the run failed |
| `SerialMoves.ChargedIff` | src/serialDeviceRecovery.js:262-276 | A run costs one of the budget unless the script ran and ended with 1 |
| `SerialMoves.WaitsDouble` | src/serialDeviceRecovery.js:245-253 | The first wait is the configured one within its limits, and each further one twice as long up to the maximum |
| `SerialRecovery.LoudOnce` | src/serialDeviceRecovery.js:149-160 | However often an outage repeats its reports, each is loud the first time and quiet from then on |
| `SerialRecovery.FailureIsReportedIff` | src/serialDeviceRecovery.js:169-305 | A poll reports a failed recovery exactly if it ran the script and the script failed |
| `SerialRecovery.SerialDeviceRecovery.HandleInterfaceDown` | src/serialDeviceRecovery.js:169-305 | One down poll changes only its network's record, runs the script exactly when the rules allow, returns what came of it, and logs each of its messages loudly the first time in an outage only |
| `SerialRecovery.SerialDeviceRecovery.HandleInterfaceUp` | src/serialDeviceRecovery.js:314-327 | Stamps the up time and the port in use for this network only and forgets what its outage had reported |
| `PanelAlarm.AlarmOffRestoresArmed` | src/securityPanelState.js:406-460 | From any armed state, any run of alarm signs with at least one entry delay or alarm, then alarm_off, restores and reports exactly that armed state |
| `PanelAlarm.MemoryStaysCalm` | src/securityPanelState.js:406-460 | The remembered state is never pending or triggered, over every run |
| `PanelAlarm.ArmedStaysProtected` | src/securityPanelState.js:370-473 | From any live state, no run free of mode 0, alarm_off and forgetting ever reports disarmed |
| `PanelAlarm.ReportsDisarmedIff` | src/securityPanelState.js:370-473 | From whatever entry a step reports disarmed exactly on a mode 0, an alarm_off that remembers it, or a word about readiness while idle, unless that is what the entry shows already |
| `PanelAlarm.DisarmedIffExposed` | src/securityPanelState.js:424-446 | Over whole runs without mode 0 and alarm_off, a live panel is reported disarmed if and only if its state is forgotten and the next telling event is about readiness |
| `PanelAlarm.AlarmOffDisarmsIff` | src/securityPanelState.js:424-460 | Over whole runs alarm_off shows a live panel disarmed if and only if the last thing to write the memory was an alarm on a panel showing disarmed |
| `PanelAlarm.ArmingKeepsStaleMemory` | src/securityPanelState.js:370-400 | From any disarmed entry: an alarm, then arming in any mode, then alarm_off reports the armed panel disarmed |
| `PanelAlarm.ForgettingUnprotects` | src/securityPanelState.js:492-498 | After forgetting, arm_ready reports any live panel disarmed, which it does not before |
| `PanelAlarm.ReportsAreTransitions` | src/securityPanelState.js:462-473 | Consecutive reported triples differ, unless the state is forgotten between them |
| `PanelModes.ModeDecidesState` | src/securityPanelState.js:15-21 | From every entry and in both readings that carry one: mode 0 shows disarmed, 2 night, 3 home, 4 vacation, 1 and everything from 5 away, with the number beside it; a negative or absent mode changes nothing |
| `PanelModes.ReadingDecidesState` | src/securityPanelState.js:370-473 | From every entry, the state each other reading shows, and when it is disregarded |
| `PanelModes.BlockedArmingNamesZone` | src/securityPanelState.js:408-419 | arm_not_ready shows disarmed and the zone in the way on an idle panel, and changes nothing on any other |
| `PanelModes.ForgettingRepublishes` | src/securityPanelState.js:476-498 | Forgetting keeps the memory and the mode and shows nothing, so that the next reading with a state is reported even if it is the one shown before |
| `PanelModes.LastModeStands` | src/securityPanelState.js:370-473 | Over every run whose last word on the state is a mode, that mode is what is shown |
| `PanelModes.StateTellsMode` | src/securityPanelState.js:15-21 | After any two such runs the same state is shown if and only if the modes are equal or both fully armed ones |
| `SecurityPanel.ReadingDecidesCondition` | src/securityPanelState.js:142-196 | A disarm ends panic, a failed arm, fire, gas and other alarms, any other arming a failed arm only, and every other condition ends only when the panel says so |
| `SecurityPanel.ConsumerAgrees` | src/securityPanelState.js:142-196 | A consumer that starts from a known state and folds in every change list holds the tracker's conditions |
| `SecurityPanel.ChangesAreNews` | src/securityPanelState.js:555-560 | Every reported change is one: no condition is reported with the value it had |
| `SecurityPanel.RoundTrip` | src/securityPanelState.js:311-349 | Restoring a network's snapshot entry into a fresh tracker gives its conditions and isolated zones |
| `SecurityPanel.JunkIsIgnored` | src/securityPanelState.js:334-349 | Foreign keys and values of the wrong type change nothing |
| `SecurityPanel.SaveAndRestore` | src/securityPanelState.js:311-349 | restore(toJSON(s)) into a fresh tracker agrees with s on every condition and isolated zone of every network |
| `SecurityPanel.SecurityPanelState.ApplyReading` | src/securityPanelState.js:142-180 | Changes only the reading's network and returns exactly the changes |
| `SecurityPanel.SecurityPanelState.ApplyAlarmReading` | src/securityPanelState.js:370-473 | One alarm reading updates the entry and reports it only if the shown triple changed |
| `SecurityPanel.SecurityPanelState.ForgetAlarmState` | src/securityPanelState.js:492-498 | Forgets what is shown but not the remembered state |
| `SecurityPanel.SecurityPanelState.InitialStates` | src/securityPanelState.js:193-196 | Lists every condition of a network once with its value |
| `SecurityPanel.SecurityPanelState.SetZoneIsolated` | src/securityPanelState.js:254-261 | Isolates a zone and says whether that changed anything |
| `SecurityPanel.SecurityPanelState.ClearZoneIsolation` | src/securityPanelState.js:280-290 | Ends all isolation and reports each dropped zone with its last state |
| `SecurityPanel.SecurityPanelState.ToJson` | src/securityPanelState.js:311-320 | Writes exactly the networks with conditions or isolated zones |
| `SecurityPanel.SecurityPanelState.Restore` | src/securityPanelState.js:334-349 | Restores exactly the networks of the snapshot and leaves the others alone |
| `TreeSignatureGuarantees.SignatureIffBindings` | src/haDiscoveryTree.js:217-242 | Trees with distinct addresses and consistent ids free of separators have equal signatures exactly when they bind the same groups to the same addresses, in either shape |
| `TreeSignatureGuarantees.BindingsDecideSignature` | src/haDiscoveryTree.js:217-242 | Equal bindings have equal signatures whenever the ids sorted together are consistent |
| `TreeSignatureGuarantees.DecimalIsRegular` | src/haDiscoveryTree.js:169-172 | Trees with canonical decimal ids meet those conditions |
| `TreeSignatureGuarantees.SignatureIgnoresOrderIff` | src/haDiscoveryTree.js:169-242 | The order in which a unit lists its groups leaves its signature alone if and only if the ids are consistent: a triple going in circles, or two spellings of one number, gives equal bindings two signatures |
| `TreeSignatureGuarantees.UnitOrderDoesNotMatter` | src/haDiscoveryTree.js:169-172 | Listing the same units in another order leaves the signature unchanged, for consistent ids |
| `TreeSignatureGuarantees.EntriesAreUnique` | src/haDiscoveryTree.js:240 | Entries in address order are determined by the map they stand for |
| `TreeSignature.AscendingIsUnique` | src/haDiscoveryTree.js:238 | An ascending id sequence is determined by its elements, so any correct sort gives the same text |
| `TreeSignature.MixedIdsGoInCircles` | src/haDiscoveryTree.js:173-179 | Such a triple: 2 before 10, 10 before 1a, 1a before 2 |
| `TreeSignature.CycleIffKnotted` | src/haDiscoveryTree.js:173-179 | The comparator goes in a circle on three ids if and only if they are two numerals and a non-numeral that lies, as text, between them the wrong way round |
| `TreeSignature.OrderIsIrrelevantIff` | src/haDiscoveryTree.js:169-179 | Sorting a set of ids and all its subsets is independent of the order they come in if and only if the set has no such triple and no two spellings of one number |
| `TreeSignature.ConsistentOrder` | src/haDiscoveryTree.js:173-179 | On a set of ids without either, the comparator is a strict total order |
| `TreeSignature.IdsAreGroups` | src/haDiscoveryTree.js:187-215 | The ids collected for a unit are its groups on real applications, each once |
| `TreeSignatureGuarantees.CollectNonManagementGroupIds` | src/haDiscoveryTree.js:187-215 | The loops over applications and groups, in both shapes, collect those ids or find no real application |
| `TreeSignatureGuarantees.TreeGroupSignature` | src/haDiscoveryTree.js:224-242 | The loop over units computes the signature |
| `TreeSignatureGuarantees.FingerprintOfUnit` | src/haDiscoveryTree.js:224-241 | The fingerprint of one unit is its unit address, else its address, a colon and its ids in order with commas, and nothing for a unit on no real application |
| `TreeData.ItemsRoundTrip` | src/haDiscoveryTree.js:187-215 | A comma-separated list with white space around its items is read as those items in order |
| `TreeData.BlankIsNoItem` | src/haDiscoveryTree.js:187-215 | A place left blank between commas is no item |
| `TreeData.RealIsNotManagement` | src/haDiscoveryTree.js:113-135 | A unit is on a real application exactly if one it lists is not 255 |
| `TreeData.JoinInjective` | src/haDiscoveryTree.js:238-241 | Joined texts determine their parts when no part is empty or contains the separator |
| `TreeClassification.BinarySensorIff` | src/haDiscoveryTree.js:136-146 | binary_sensor is concluded exactly when some driving unit is an input, every driving unit is input or management, and no unit of the network is unsynced |
| `TreeClassification.LoadIsAlwaysLight` | src/unitTypeClassifier.js:137-146 | A group with a dimmer is dimmable and one with a relay and no dimmer is on/off, exactly then, however incomplete the tree |
| `UnitFamilies.ConclusionByFamily` | src/unitTypeClassifier.js:24-147 | Told by how unit types begin, in any case and white space aside: dimmable if a DIM unit drives the group, else on/off if a REL unit does, else read-only if a SEN, KEY or BCN unit does and every other driver is one of these or PC_, PCLOCAL or TEXT, with no unit unsynced |
| `UnitFamilies.FamilyDecidesCategory` | src/unitTypeClassifier.js:24-63 | A type is of a category exactly if it begins with one of its prefixes, and no two categories share one |
| `UnitFamilies.GrouplessIffSwitch` | src/unitTypeClassifier.js:65-90 | The units that never have groups are exactly those whose type begins with KEY or BCN |
| `TreeClassification.UnitOrderDoesNotMatter` | src/haDiscoveryTree.js:321-384 | Index and conclusion depend only on which units there are |
| `TreeClassification.DrivingUnitIsSynced` | src/haDiscoveryTree.js:109-135 | A unit that drives a group on a load application has device data and is never taken for unsynced |
| `TreeClassification.UnsyncedIffNoData` | src/haDiscoveryTree.js:50-135 | A unit is unsynced exactly when it is on a real application, has no device data and is not of a family without groups |
| `TreeClassification.CollectUnitGroups` | src/haDiscoveryTree.js:244-282 | A unit adds exactly the application/group pairs it drives on the target applications, in both shapes |
| `TreeClassification.CollectUnitTypeData` | src/haDiscoveryTree.js:321-384 | The index holds exactly the driven pairs, each with all its drivers' types, blank included, and the unknown types among drivers |
| `TreeClassification.DiscoverAndIndex` | src/haDiscoveryTree.js:244-384 | The type index and the discovered groups have the same domain |
| `TreeClassification.ClassifyGroup` | src/haDiscoveryPublishers.js:528-533 | Looking a group up in the index and classifying it gives the conclusion from all units |
| `UnitClassifier.EntityTypeForGroup` | src/unitTypeClassifier.js:122-147 | The flag loop over a group's types decides dimmer before relay before input |
| `LineProcessors.ChunksDoNotMatter` | src/lineProcessor.js:48-86 | However the stream is cut and whichever callbacks throw, what was delivered and what is still to deliver is the split of the whole stream |
| `LineProcessors.StreamIsSplit` | src/lineProcessor.js:48-118 | With no failing callback the chunks deliver the split of the stream and buffer its undelimited tail |
| `LineProcessors.DrainConserves` | src/lineProcessor.js:63-72 | Lines are delivered in order, once each, and a throw loses none behind it |
| `LineProcessors.DrainFinishes` | src/lineProcessor.js:74-85 | A call that does not throw leaves exactly the undelimited tail |
| `LineProcessors.ThrowStops` | src/lineProcessor.js:63-72 | A call stops at the first failing callback and only there |
| `LineProcessors.FeedStaysCapped` | src/lineProcessor.js:56-61 | No call ends with more than the cap in the buffer |
| `LineProcessors.ClosedStreamIsSplit` | src/lineProcessor.js:48-131 | Whichever callbacks throw, closing after a last call that was not cut short delivers the lines of the stream and its tail, each once; closing again adds nothing exactly if the callback did not throw on the tail |
| `LineProcessors.ClosesOnceIff` | src/lineProcessor.js:123-131 | From any state: closing twice delivers the buffered rest once if and only if the callback does not throw on it, and else the same line a second time |
| `LineClosing.ClosedStreamIsSplitIff` | src/lineProcessor.js:123-131 | For all settings and whichever callbacks throw: after closing the stream is delivered split if and only if at most one line was pending, and, unless lines are trimmed and the delimiter is white space, no delimiter but a single carriage return at the end of untrimmed text |
| `LineClosing.RemainingWeight` | src/lineProcessor.js:63-108 | Splitting never delivers more than the text holds, and where it splits it loses at least one delimiter |
| `LineProcessors.PendingLinesRunTogether` | src/lineProcessor.js:123-131 | Three lines in one chunk, a throw on the first, then a close: the other two arrive as one line |
| `LineSpec.SplitAppend` | src/lineProcessor.js:63-85 | Splitting a stream continues from the tail of what came before |
| `LineSpec.SplitJoin` | src/lineProcessor.js:63-85 | Joining lines and tail with the delimiter gives the stream back |
| `LineSpec.NormalizeStrips` | src/lineProcessor.js:98-108 | A delivered line is the raw one without one trailing carriage return and, if lines are trimmed, without its surrounding space, and nothing else is taken away |
| `LineSpec.SkippedIffBlank` | src/lineProcessor.js:98-108 | A line is skipped exactly when empty lines are and it is blank, or empty if lines are not trimmed |
| `LineSpec.IndexOfIsFirst` | src/lineProcessor.js:61-72 | The search finds the first occurrence, or there is none |
| `LineProcessors.LineProcessor.constructor` | src/lineProcessor.js:9-27 | An empty delimiter falls back to a newline and a cap that is not positive to the default |
| `LineProcessors.LineProcessor.ProcessData` | src/lineProcessor.js:48-86 | The loop over offsets into one buffer equals feeding the chunk, including where a throw leaves off |
| `LineProcessors.LineProcessor.ProcessLine` | src/lineProcessor.js:93-118 | Invokes the callback exactly on lines that are not skipped |
| `LineProcessors.LineProcessor.MaterializeBuffer` | src/lineProcessor.js:36-41 | Folding the offset into the buffer changes nothing visible |
| `LineProcessors.LineProcessor.ProcessFinalLine` | src/lineProcessor.js:165-175 | Delivers the buffered rest as a final line |
| `LineProcessors.LineProcessor.Close` | src/lineProcessor.js:123-131 | Delivers the rest if a callback is set and drops it otherwise |
| `CBusEventRoundTrip.EventRoundTrip` | src/cbusEvent.js:123-181 | Any device type, action, project, in-range address and level: the printed event line parses back to exactly those |
| `CBusEventRoundTrip.StatusRoundTrip` | src/cbusEvent.js:324-364 | In status mode or after a 300 code, every in-range address and level parse back, and the action says whether the level is positive |
| `CBusEventLines.PartsAreValidIff` | src/cbusEvent.js:253-309 | For any digits in an address: the event is valid exactly if each part has at most three and they are worth up to 254, 255 and 255; if not, nothing is set |
| `CBusEventLines.KeyedLevelRoundTrip` | src/cbusEvent.js:156-177 | Behind a token that is no number, the level is the one level= names, wherever it stands |
| `CBusEventLines.UnkeyedLevel` | src/cbusEvent.js:172-177 | Without that key the level is what digits the token begins with, or none |
| `CBusEventLines.FallbackFields` | src/cbusEvent.js:92-112 | A line the fast path cannot read is what the fallback pattern makes of it, valid exactly if its parts are in range |
| `CBusEventSpec.ValidIsInBounds` | src/cbusEvent.js:253-309 | For every line on every path, a valid event has three all-digit parts in range, its address is made of them, and it has type and action |
| `CBusEventSpec.ReadingIff` | src/cbusEvent.js:316-322 | An event has a reading exactly if it is a valid temperature broadcast of one byte, and then a quarter degree per step |
| `CBusEventRoundTrip.SourceUnitRoundTrip` | src/cbusEvent.js:58-61 | A source unit printed behind its key is read back, whatever stands around it |
| `CBusEventSpec.SourceUnitIsFirst` | src/cbusEvent.js:58-61 | The source unit is the number behind the leftmost key that is followed by a digit, and there is none without such a key |
| `CBusEvents.CBusEvent.constructor` | src/cbusEvent.js:33-121 | Parsing sets exactly the fields the specification reads off the line, the decoded reading and the source unit included |
| `CBusEvents.CBusEvent.ParseStandardEventFastPath` | src/cbusEvent.js:123-181 | The index arithmetic over spaces finds type, action, address and level, or leaves the event untouched |
| `CBusEvents.CBusEvent.ParseLevel` | src/cbusEvent.js:156-177 | A plain number, else level=N anywhere behind, else leading digits |
| `CBusEvents.CBusEvent.ParseStatusResponse` | src/cbusEvent.js:324-364 | Reads the last three parts before the colon and the level behind level= |
| `CBusEvents.CBusEvent.ApplyAddressComponents` | src/cbusEvent.js:253-281 | Sets the address fields exactly when all parts are in range |
| `CBusEvents.ExtractAddressComponents` | src/cbusEvent.js:189-215 | Splits n/a/g with or without a leading project and accepts digits only |
| `CBusEvents.StatusComponents` | src/cbusEvent.js:331-344 | Backward searches with clamped positions find the same last three parts |
| `CBusEvents.ExtractLeadingInt` | src/cbusEvent.js:217-230 | The value of the leading digits, or none |
| `CBusEvents.IsDigitsOf` | src/cbusEvent.js:283-292 | True exactly for non-empty digit strings |
| `Decimals.DigitsWeigh` | src/haDiscoveryTree.js:169-179 | A numeral is worth its leading part times the power of ten behind it plus the rest |
| `Decimals.CanonicalIffPrinted` | src/haDiscoveryTree.js:169-179 | Digit strings without leading zero are exactly the printed numbers |
| `PublishSpec.FlushedIsUpToDate` | src/eventPublisher.js:766-818 | Once flushed, the last payload delivered on each topic is the last one requested, despite coalescing, dedup and eviction |
| `PublishSpec.EveryAttemptIsCounted` | src/eventPublisher.js:766-799 | publishAttempts = published + dedupDropped + coalesced + buffered, and the cache within its limit, over every run |
| `PublishSpec.DropsExactlyRepeats` | src/eventPublisher.js:787-793 | A publish is dropped exactly when its topic is cached and carried that payload within the window |
| `PublishSpec.PruneWithin` | src/eventPublisher.js:844-864 | Pruning only forgets entries and ends within the limit |
| `PublishSpec.FlushIsScheduledIff` | src/eventPublisher.js:766-818 | Over every run a flush is to come exactly while something waits for one |
| `PublishSpec.PruneKeepsIff` | src/eventPublisher.js:844-864 | A cache over its limit keeps exactly the entries sent within the window that fewer such entries than the limit follow, so the newest |
| `PublishSpec.RunKeeps` | src/eventPublisher.js:766-864 | A cached entry is what was last delivered and nothing requested is forgotten, over every run |
| `EventPublishers.EventPublisher.PublishNow` | src/eventPublisher.js:781-799 | Sends unless it is a repeat, and keeps the cache pruned |
| `EventPublishers.EventPublisher.PublishIfNeeded` | src/eventPublisher.js:766-779 | Buffers the newest payload and schedules one flush, or publishes at once |
| `EventPublishers.EventPublisher.PruneDedupCache` | src/eventPublisher.js:844-864 | Expired entries go first, then the oldest, and every eviction is counted |
| `EventPublishers.EventPublisher.OnFlush` | src/eventPublisher.js:801-818 | Publishes the buffered entries in order |
| `MqttPending.QueueIsNewest` | src/mqttManager.js:184-196 | The bounded queue is exactly the end of the unbounded list of last writes |
| `MqttPending.ReplayEqualsLive` | src/mqttManager.js:157-212 | With no more distinct topics than the cap, the flush leaves the broker as if each publish had been sent live |
| `MqttPending.ReplayKeepsNewest` | src/mqttManager.js:184-212 | Beyond the cap exactly the most recently written topics survive, each with its newest payload |
| `MqttPending.LastWritesAreNewest` | src/mqttManager.js:184-188 | Each written topic is listed with its newest payload |
| `MqttPending.LastWritesAreOrdered` | src/mqttManager.js:184-188 | Topics are listed in the order of their last writes |
| `MqttPending.StatusIsShown` | src/mqttManager.js:477-488 | If the broker still shows what was remembered it shows the status afterwards, and no other topic moves |
| `MqttPending.MqttManager.PublishMessage` | src/mqttManager.js:157-182 | Connected, it delivers; disconnected, it queues retained messages only |
| `MqttPending.MqttManager.EnqueueRetainedPublish` | src/mqttManager.js:184-196 | Newest wins per topic and the oldest goes over the cap |
| `MqttPending.MqttManager.FlushPendingPublishes` | src/mqttManager.js:198-212 | Replays the queue in order; an entry whose publish throws is lost |
| `MqttPending.MqttManager.HandleConnect` | src/mqttManager.js:294-346 | Connecting restarts the counters, publishes the status unless it is the last one sent, and then replays the queue; should the status publish throw, the queue is kept. Unless the status topic is queued, the broker then shows what the status protocol says |
| `MqttPending.MqttManager.PublishStatus` | src/mqttManager.js:477-488 | Sends and remembers the status exactly if connected and it differs from the last one |
| `MqttPending.MqttManager.SetBridgeReady` | src/mqttManager.js:468-475 | Records readiness and publishes it if connected |
| `MqttPending.MqttManager.HandleClose` | src/mqttManager.js:365-378 | A closed connection is neither connected nor ready |
| `MqttPending.MqttManager.HandleError` | src/mqttManager.js:385-387 | An error only counts as disconnected |
| `MqttPending.MqttManager.Disconnect` | src/mqttManager.js:128-146 | An intentional end sends the offline status first if connected; should that throw, broker and remembered status stay as they were |
| `BridgeStatus.StepKeepsIff` | src/mqttManager.js:468-488 | One event keeps the remembered status, the readiness and the broker's retained status in agreement if and only if it is not a will arriving while ready or a broker forgetting what is remembered |
| `BridgeStatus.LinkIsHistory` | src/mqttManager.js:365-475 | Over every history: connected and ready are what the events last said of them, a close or an end counting against both |
| `BridgeStatus.StatusWords` | src/mqttManager.js:477-488 | On coming up and when readiness is set while up, Online or Offline goes out, unless it was the last word |
| `BridgeStatus.HarmlessIffTrue` | src/mqttManager.js:468-488 | Such an event is exactly one after which the broker shows the readiness whenever connected, and would after a reconnect |
| `BridgeStatus.TruthIffHarmless` | src/mqttManager.js:468-488 | Over whole runs: every moment shows the readiness, and would after a reconnect, if and only if each event is of that kind |
| `BridgeStatus.StatusIsTrue` | src/mqttManager.js:468-488 | Over every run of other events, whenever connected the broker shows exactly the bridge's readiness |
| `BridgeStatus.LateWillStays` | src/mqttManager.js:477-488 | After a will that arrives while ready, reconnecting and reporting ready again send nothing and the broker shows offline for good |
| `CoverRampSpec.ReportsApproach` | src/coverRampTracker.js:47-73 | With a forward clock an interval's reports move only towards the target, and a ramp whose time ran out ends with exactly the target |
| `CoverRampSpec.StartedRampApproaches` | src/coverRampTracker.js:47-73 | From its start, a ramp's reports stay between its levels and approach the target |
| `CoverRampSpec.InterpolatedIsNearest` | src/coverRampTracker.js:63-64 | The estimate is the integer nearest to the exact position, halves rounded up |
| `CoverRampSpec.GoneIsSilent` | src/coverRampTracker.js:81-87 | A cancelled, replaced or finished interval reports nothing ever again |
| `CoverRampSpec.ReplacedIsSilent` | src/coverRampTracker.js:47-49 | Starting or cancelling on a key silences its previous interval |
| `CoverRampSpec.OneIntervalPerKey` | src/coverRampTracker.js:47-73 | At every moment of every run each key has at most one live interval |
| `CoverRamps.CoverRampTracker.StartRamp` | src/coverRampTracker.js:47-73 | Cancels the key's ramp and arms one new interval |
| `CoverRamps.CoverRampTracker.CancelRamp` | src/coverRampTracker.js:81-87 | Stops and forgets the key's interval |
| `CoverRamps.CoverRampTracker.CancelAll` | src/coverRampTracker.js:92-96 | Leaves no interval live |
| `CoverRamps.CoverRampTracker.OnInterval` | src/coverRampTracker.js:54-66 | Reports the rounded interpolation, or the target once and cancels |
| `CoverRamps.CoverRampTracker.IsRamping` | src/coverRampTracker.js:104-106 | True exactly when a live interval has this key |
| `EventLogs.EventLog.GetRecent` | src/cgateWebBridge.js:425-431 | Returns exactly the last min(n, size) events, oldest first |
| `EventLogs.EventLog.OnEventLog` | src/cgateWebBridge.js:407-415 | Recording keeps the ring in step with the whole history |
| `EventLogs.EventLog.constructor` | src/cgateWebBridge.js:400-406 | The ring holds max(10, setting) entries and starts empty |

## Left out

- Sockets, the MQTT client, file watching, HTTP, child processes, XML and archive parsing: only the events
  they deliver are modelled, as arguments or steps.
- Discovery payload contents, topic wording beyond the network marker, log text and redaction.
- `src/cgateConnection.js` delivery, the lifecycle of `src/bridgeReadiness.js` and native aircon writes: not part of
  this model.
- Network ids in the TREEXML protocol are numbers or the literal `unknown`; empty ids are not represented.
- Publishing that throws inside the parse callback: the send bound is about publishing that returns.
- The regular expressions of `handleCommandError` and the event fallback pattern: their results are arguments,
  and the pattern's groups are taken to be digits as it prescribes.
- Timer closures capture a record; `Sound` says the live record is that one, so aliasing of a replaced record is
  not represented separately.
- Discovery topics are described by their parts; group ids that contain separators could collide as text and are
  not represented. Configs a previous process left on the broker are represented only as a set of topics.
- Sets and maps whose iteration order cannot be observed are Dafny sets and maps; the loops over them pick any order.
- DiscoveryResults.TreeRunResult: asks that every group address occurs once in a run, as the maps it is built from
  ensure within an application.
- ThrottledQueues.ThrottledQueue.Add: a priority that is no string counts as none; undefined items, processFn calling
  add() and a drop callback that throws are left out.
- A discovery run in which publishing itself throws between the broker and the books.
- Re-entrant callbacks in the line processor, and characters split across binary buffers; the cap counts characters.
- LineProcessors.StreamIsSplit: assumes the cap is never hit, as the source truncates the buffer when it is.
- SerialRecovery.SerialDeviceRecovery.HandleInterfaceDown: messages are their contents, told apart by those, not their
  wording; how the script is found and run is left out.
- Snapshot files hold the tracker's keys, foreign keys and values by kind; JSON text is not modelled.
- TreeSignatureGuarantees.SignatureIffBindings: for distinct addresses. Signs, fractions, exponents and hexadecimal in
  Number() are not modelled; the built-in sort is a stable insertion sort.
- Null nodes among applications and groups, on which the collectors throw; group labels and which node wins.
- Event levels are exact integers, without the precision of doubles.
- The event publisher's topic cache and shutdown; publishes that bypass it.
- MQTT options other than retain; credentials, subscriptions and how the client reconnects.
- Cover positions use exact reals, so floating-point error in the interpolation is not represented.
- Event-log listeners, whose errors the source swallows.
