# Plane: verified models of the orchestrator's stateful cores

Plane runs session backends (Docker containers) on drones. This project models the parts of it in
which state, time and interleaving make correctness hard to see, and proves what they promise, in
Dafny 4.11. `dafny verify dfyconfig.toml` checks everything.

## What is modelled

- **Backend lifecycle.** `Lifecycle` holds the states, `Step` (the executor's `step` with the
  outcome of every awaited call as a parameter) and `Judge` (what the run loop does with the
  result). `RunLoop` is `run_backend` as nested loops on an object, specified by the function
  `Drive`. `Protocol` is the whole drone as a labelled transition system: any number of runs, each
  cut into the stretches of code between two awaits, together with containers that start and die on
  their own, a Docker event stream that connects, ends and loses events, the capacity-1 signal
  channel with its reserved slot and waiting senders, failing database writes and publications,
  crashes and resumes, all on the agent's one thread. `ProtocolInvariants` proves what every action
  keeps; `ProtocolTheorems`, `HistoryTheorems`, `TerminalTheorems`, `WakeUpTheorems`,
  `DepartureTheorems`, `ThreadTheorems` and `RouteTheorems` conclude for every finite behaviour
  (`Behaviour`), using `Continuations` where they say what can still happen; `ProtocolWitnesses`
  shows by example where they stop. The transition system is tied to the loop: every run in every
  interleaving has done what `Drive` does on some script, with the same writes, messages and monitors
  (`RunsRefineLoop`, `RecordFrame`), the awaits of an attempt add up to `Step` (`AttemptIsStep`), and
  what was stored and published is read off the actions themselves (`TracesExactly`).
- **Drone database.** `Database`: the backend table as a map, the route table as a set of rows with
  two unique columns under insert-or-replace.
- **Activity and idle sweep.** `ConnectionTracker` against the history of its calls; `IdleSweep` puts
  tracker, recorder and database into one object (`Activity`), whose stored stamps are those of the
  history, and carries requests and open connections through it to the sweep decision.
- **DNS.** `TtlMap`, `TtlList` and `TtlMultistore` as objects whose state is tied to `Replay` of a
  log of calls, which in turn is compared with the plain log of inserts; `DnsServer` composes them;
  `Naming` splits host names and formats mailbox names.
- **Windows.** `Scheduler` against the history of status messages; `Heartbeat` is the argument
  shared by the scheduler's 5 s window and the 50 s/60 s DNS refresh; `CertRefresh` is the timing of
  the certificate loop.

## Where the code and its documentation differ

The model follows the code.

- `BackendState::terminal` is documented as final. Swept and Terminated are; any other stored terminal
  state can still be replaced by `Terminated` (`OverwriteExactly`, `TerminalCanChange`).
- The interrupt signal is meant to catch a container that dies during a step. It does not if the Docker
  event stream is not connected at the death, or ends before it has delivered the event
  (`NoLostWakeUp` has the exact condition; `WakeUpCanBeLost`, `WakeUpCanBeCutOff`). The stream connects
  only once its task first runs, and is not reconnected after it ends.
- A kill request waits for the channel with its entry in the listener map borrowed, which locks a
  shard of the map, and inserting or removing an entry of that shard waits for the lock without an
  await. A run that begins or leaves its loop meanwhile never gets on, and since the drone runs on one
  thread (drone/src/run.rs:91), it stops the whole process, its proxy included (`ExitExactly`,
  `EntryExactly`, `StuckForGood`; `ExitCanBlock`, `ExitCanBlockAcross`, `EntryCanBlock`).
- A step that fails in Starting or Ready ends the run without a new state. The backend then stays stored
  as running, out of reach of kill requests, until the agent restarts; a failed write of a terminal
  state has the same effect (`AbandonedExactly`, `LeftIsFinal`, `RunningCanBeAbandoned`).
- A backend that is Ready should be found by the proxy. It is not if its container has died unnoticed
  and another backend has been started on its address (`RouteCanBeLost`, `RoutesKeptExactly`).
- The interrupt for a container that was also removed wakes a Ready attempt in vain: the engine does not
  know the container any more, and the attempt returns to its idle loop (`WakeUpArrives`).
- The idle loop reads the clock twice; a deadline between the two readings makes the step fail, which
  ends the run while the backend stays stored as Ready (`ClockErrorExactly`, `ClockCanFail`).
- `get_or_insert_with` leaves no ticket in the queue, so the keys of a multistore are never evicted
  (`EnsuredStay`).

## Model

| member | source | states |
|---|---|---|
| Lifecycle.FromString | core/src/messages/agent.rs:401-439 | parsing a stored state inverts printing it and accepts no other text, so resuming never meets an unreadable state |
| Lifecycle.StepAdvances | drone/src/agent/executor.rs:302-386 | every result of a step leads to a strictly later state, never out of Swept and never to Terminated, and a run can finish only from a terminal state whose container was stopped |
| Lifecycle.StepExactly | drone/src/agent/executor.rs:302-386 | for every state, exactly which outcomes of the awaited calls make a step return it, and when a step is done |
| RunLoop.DriveBound | drone/src/agent/executor.rs:204-278 | a run that receives n signals makes at most n + 4 step attempts, and n + 5 minus its starting stage if resumed later in the lifecycle |
| RunLoop.BoundIsTight | drone/src/agent/executor.rs:212-236 | for every n there is a run with n signals and exactly n + 4 attempts |
| RunLoop.SignalsExactly | drone/src/agent/executor.rs:212-236 | an interrupt repeats the attempt, a termination request chooses Terminated, a lost sender abandons the run, each exactly so, and in Swept none is looked at |
| RunLoop.DriveOrdered | drone/src/agent/executor.rs:238-277 | the states a run hands on follow one another in lifecycle order from its initial state |
| RunLoop.StoppedIsTerminal | drone/src/agent/executor.rs:257-261 | a run that ends successfully is in a terminal state and its last attempt stopped the container |
| RunLoop.InnerLoop | drone/src/agent/executor.rs:212-236 | attempts cut short by an interrupt are repeated and change nothing but the counts of attempts and signals |
| RunLoop.Executor.Conclude | drone/src/agent/executor.rs:237-277 | whatever ends an attempt other than an interrupt, the state adopted, the ending and the effects on rows, messages and monitors are those of the specification one round further |
| RunLoop.Executor.RunBackend | drone/src/agent/executor.rs:193-282 | state, ending, database writes, messages and monitors of a run are those of the specification; a finished run leaves neither a monitor nor a listener, a run with a lost sender leaves both |
| RunLoop.RecordFrame | drone/src/agent/executor.rs:284-300 | a run's row is the last state it stored, its messages are the states it sent in order, it has a monitor exactly if it had or started one, and rows, messages and monitors of other backends are untouched |
| ProtocolInvariants.AttemptIsStep | drone/src/agent/executor.rs:302-386 | the result that an attempt reaches await by await is the result of the step on the outcomes it met |
| ProtocolInvariants.InvariantKept | drone/src/agent/executor.rs:117-282 | every action of drone, engine and callers keeps the invariants of all backends and takes back no database write |
| ProtocolTheorems.RunsRefineLoop | drone/src/agent/executor.rs:193-300 | in every interleaving, each live run has made the attempts, received the signals, stored and sent the states and started the monitors that the sequential loop does on some script |
| ProtocolTheorems.LifecycleOrder | drone/src/agent/executor.rs:129-144 | over whole behaviours with signals, errors, crashes and resumes: written states start with Loading and rise strictly in rank except that Terminated may repeat, nothing follows Swept, TimedOutBeforeReady is never written, histories only grow, and without failed writes the published trace is a subsequence of the written one |
| TerminalTheorems.TerminalOverwrite | core/src/messages/agent.rs:441-455 | at any later point of a behaviour a stored terminal state is still there, or it was neither Swept nor Terminated, is Terminated now, and a kill request has arrived |
| TerminalTheorems.OverwriteExactly | drone/src/agent/executor.rs:163-228 | a stored terminal state can still change exactly if it is neither Swept nor Terminated |
| ThreadTheorems.AttemptCanBeOverwritten | drone/src/agent/executor.rs:212-228 | it can be overwritten without a restart from every attempt to stop its container, exactly if no run is stuck at the listener map |
| HistoryTheorems.StatesAreCaused | drone/src/agent/executor.rs:302-386 | every stored state had its cause: ErrorLoading and Starting a load that failed or succeeded, ErrorStarting a look at the container that did not find it up, Ready an inserted route, Failed, Exited and Swept a look at a container that had died with a nonzero code, with zero or without one, or for Swept an idle loop that ran out, Terminated a kill request |
| HistoryTheorems.ChoosesExactly | drone/src/agent/executor.rs:204-277 | in every behaviour, a run comes to choose a state by an action if and only if the action is the event that leads there: each answer of engine, database and idle loop, each kill request |
| HistoryTheorems.DeathIsWritten | drone/src/agent/executor.rs:337-347 | if the engine saw the container of a Ready backend dead, the next state written is Failed, Exited or Swept as it died with a nonzero code, with zero or without one |
| HistoryTheorems.TracesExactly | drone/src/agent/executor.rs:129-144 | at every point of every behaviour, the stored and the published states of a backend are exactly those that its successful insertions, writes, announcements and publications carried, in order |
| HistoryTheorems.PublishedIsStored | drone/src/agent/executor.rs:284-300 | as long as no write or publication fails and the agent does not crash, what is published is what is stored at every loop head and after the run |
| HistoryTheorems.KillsConserved | drone/src/agent/executor.rs:146-161 | no kill request is lost or doubled while a run lives: all that have arrived were taken or are in the channel, about to enter it, or waiting for it |
| WakeUpTheorems.NoLostWakeUp | drone/src/agent/executor.rs:117-127 | in every interleaving, an attempt sleeps through the end of the container it saw up if and only if the container died with nothing in the channel, no event or kill request has reached the attempt since, and the event stream was not connected at the death or has ended since; interrupts dropped on a full channel do no harm |
| WakeUpTheorems.WakeUpArrives | drone/src/agent/executor.rs:212-236 | from every reachable state in which such a container is gone and the attempt is not asleep, the pending deliveries can bring the run to a terminal state exactly if no run is stuck and the backend is still Starting, or the engine still knows the dead container, or a kill request is pending |
| ProtocolTheorems.MapOwnership | drone/src/agent/executor.rs:163-202 | at every loop head the id is in the listener map, in the monitor map if the state is Starting or Ready, also after a resume, and not in it while Loading; after a run has left, in neither; the lost-sender branch is never taken |
| ProtocolTheorems.AttemptBound | drone/src/agent/executor.rs:204-278 | the attempt bound holds for every run of every behaviour |
| ThreadTheorems.ExitExactly | drone/src/agent/executor.rs:280-281 | a run that has left its loop can finish without a crash if and only if no kill request waits to send for its backend or for another one in its shard of the listener map |
| ThreadTheorems.EntryExactly | drone/src/agent/executor.rs:193-196 | a run that inserts its listener can begin its loop without a crash under the same condition |
| DepartureTheorems.LeftIsFinal | drone/src/agent/executor.rs:264-282 | until the agent crashes, a backend whose run has left its loop keeps its stored state, publishes nothing and, once the run has finished, has neither listener nor monitor |
| DepartureTheorems.EndsExactly | drone/src/agent/executor.rs:238-277 | a run leaves its loop exactly when a call awaited in Starting or Ready fails, the stop of its container returns, or a failed load has been published |
| DepartureTheorems.AbandonsExactly | drone/src/agent/executor.rs:263-275 | while no write failed, an action makes the run leave behind a backend stored as running if and only if it is the failure of a call that a Starting or Ready step awaits |
| DepartureTheorems.AbandonedExactly | drone/src/agent/executor.rs:238-282 | at every point of every behaviour, a backend stored as running is without a run if and only if, since the agent last started, a call awaited in Starting or Ready has failed, or the write of a terminal state has failed and the run has ended since |
| ThreadTheorems.StuckForGood | drone/src/run.rs:91-94 | a run that waits for the listener map while a kill request keeps its shard locked stops the whole agent until it crashes: no run proceeds, nothing is stored, published, spawned or forwarded |
| ProtocolWitnesses.WakeUpCanBeLost | drone/src/agent/executor.rs:97-103 | a behaviour in which the container is loaded, dies before the event stream is connected, and the attempt sleeps on |
| ProtocolWitnesses.WakeUpCanBeCutOff | drone/src/agent/executor.rs:117-127 | a behaviour in which the stream is connected at the death and ends before the event is read |
| ProtocolWitnesses.ExitCanBlock | drone/src/agent/executor.rs:280-281 | a behaviour in which two kill requests during a failing load block the exit of the run |
| ProtocolWitnesses.ExitCanBlockAcross | drone/src/agent/executor.rs:146-161 | a behaviour in which a kill request that waits for one backend blocks the exit of another in its shard |
| ProtocolWitnesses.EntryCanBlock | drone/src/agent/executor.rs:193-196 | a behaviour in which it blocks the start of a backend |
| ProtocolWitnesses.RunningCanBeAbandoned | drone/src/agent/executor.rs:270-275 | a behaviour in which a failed status request leaves a backend with a live container stored as Starting, with no run to look after it |
| ProtocolWitnesses.TerminalCanChange | drone/src/agent/executor.rs:226-228 | a behaviour that stores Loading, Starting, ErrorStarting and then Terminated |
| ProtocolWitnesses.RouteCanBeLost | drone/src/database.rs:139-161 | a behaviour in which a backend stored as Ready has no route, because another one was started on the address of its dead container |
| RouteTheorems.RoutesKeptExactly | drone/src/database.rs:139-161 | every action keeps the route of each backend that is Ready or about to be, except exactly an insertion that claims its address |
| RouteTheorems.RouteVisibility | drone/src/database.rs:121-137 | if no insertion claims an address still needed, the proxy finds a route exactly while the backend is stored as Ready |
| RouteTheorems.ReleasedIsExclusive | drone/src/database.rs:139-161 | the condition holds if the engine hands out an address only once every earlier holder is stored in a terminal state |
| RouteTheorems.RouteNeverReturns | drone/src/database.rs:98-161 | a route that has disappeared never comes back, also after another backend claimed its address |
| RouteTheorems.TablesFollowCalls | drone/src/database.rs:45-161 | every action of the drone changes the tables by at most one database call, a fresh insertion that is never rejected, a state update or a route insertion, and restarts change nothing |
| RouteTheorems.RoutesDistinct | drone/migrations/20220529222220_initial-db.sql:18-36 | two subdomains never resolve to one address, whatever addresses the engine hands out |
| RouteTheorems.RouteLeadsHome | drone/src/agent/executor.rs:313-335 | a subdomain resolves only to an address its own container was started on |
| RouteTheorems.RunningConserved | drone/src/database.rs:66-76 | the running count is always backends inserted minus backends that ever reached a terminal state, and backends spawned minus those if no write failed |
| RouteTheorems.RestartKeepsCount | drone/src/agent/executor.rs:163-191 | crash, boot and resume leave the running count unchanged |
| Database.InsertOrReplace | drone/src/database.rs:139-161 | the unique columns stay unique, and exactly the other rows with the same address are lost |
| Database.TouchedRows | drone/src/database.rs:163-178 | the loop of updates is one pass in which each row takes the time of the last update of its subdomain |
| Database.DroneDatabase.RunningBackends | drone/src/database.rs:66-76 | counts exactly the rows whose state is not terminal |
| Database.DroneDatabase.GetProxyRoute | drone/src/database.rs:121-137 | answers the address of the one matching row of a Ready backend, or nothing |
| Database.DroneDatabase.InsertProxyRoute | drone/src/database.rs:139-161 | replaces the rows that collide and keeps the constraints |
| Database.DroneDatabase.ResetLastActiveTimes | drone/src/database.rs:163-178 | each listed subdomain takes the time of the last of its updates; the first update that fails ends the loop and those before it stay |
| Database.DroneDatabase.GetBackendLastActive | drone/src/database.rs:180-196 | fails exactly if the backend has no route, and otherwise reads its stamp |
| ConnectionTracker.OpenIsDifference | drone/src/proxy/service.rs:153-166 | the tracked count is opened minus closed exactly if every close matched an earlier open |
| ConnectionTracker.Tracker.TrackRequest | drone/src/proxy/connection_tracker.rs:32-34 | keeps the tracker in agreement with its history |
| ConnectionTracker.Tracker.IncrementConnections | drone/src/proxy/connection_tracker.rs:9-15 | stored counts are the open connections of the history |
| ConnectionTracker.Tracker.DecrementConnections | drone/src/proxy/connection_tracker.rs:17-22 | the same after a close; an entry that reaches zero is dropped, an unknown one ignored |
| ConnectionTracker.Tracker.GetAndClearActiveBackends | drone/src/proxy/connection_tracker.rs:44-55 | reports once each exactly the backends with a request since the last drain or with more connections opened than closed |
| ConnectionTracker.EmptyWhenClosed | drone/src/proxy/connection_tracker.rs:9-23 | the map is empty exactly when all connections are closed, and stored counts lie between 1 and 2^32 - 1 |
| IdleSweep.Activity.RecordOnce | drone/src/proxy/mod.rs:26-38 | one round stamps the routes of exactly the active backends, or of some of them if an update fails, and every stored stamp is the one read off the history of calls |
| IdleSweep.Activity.Track | drone/src/proxy/connection_tracker.rs:32-42 | requests, opens and closes change no stamp, and stored stamps stay those of the history |
| IdleSweep.Activity.InsertRoute | drone/src/database.rs:139-161 | a new route starts with its own stamp, and the other routes keep theirs |
| IdleSweep.Activity.ReadStamp | drone/src/database.rs:180-196 | the stamp that the query returns is the one that the history of tracker, rounds and routes says |
| IdleSweep.Activity.IdleCheck | drone/src/agent/executor.rs:350-369 | end to end: with a connection open or a request between every two drains, recorded in time, a check against the stamp read from the database does not sweep if the idle limit is at least period + delay + 1 s - 1 ns |
| IdleSweep.IdleLoop | drone/src/agent/executor.rs:349-367 | the loop ends at the first check that does not sleep, with its outcome |
| IdleSweep.ClockErrorExactly | drone/src/agent/executor.rs:361-366 | the loop ends in a clock error exactly if the clock passes the deadline between the two readings of one check, however the stamp moves between checks |
| IdleSweep.NextCheckExactly | drone/src/agent/executor.rs:361-366 | after a sleep that is not early and with an unchanged stamp, the next check fails exactly if it finds the clock on the deadline and then past it, and sweeps exactly if it finds it past the deadline |
| IdleSweep.ClockCanFail | drone/src/agent/executor.rs:361-366 | every idle backend fails so if its loop wakes up on the deadline and the clock then moves on by a tick |
| IdleSweep.SweepExactly | drone/src/agent/executor.rs:350-369 | timely stamps never lead to a sweep exactly if the idle limit is at least period + delay + 1 s - 1 ns |
| IdleSweep.NoSweepWhileBusy | drone/src/agent/executor.rs:350-369 | with a connection open or a request between every two drains, the whole idle loop does not end in a sweep, however often it looks |
| IdleSweep.NoSweepWhileConnected | drone/src/agent/executor.rs:350-369 | in particular with a connection open throughout |
| IdleSweep.IdleIsSwept | drone/src/agent/executor.rs:350-369 | a backend no longer in use keeps its stamp and is swept exactly by a check that finds the clock more than the idle limit past it |
| TtlMap.EntriesAreLatest | controller/src/ttl_store/ttl_map.rs:33-91 | for arbitrary times, each entry is the last insert of its key and has its own ticket in the queue |
| TtlMap.KeptWhileLive | controller/src/ttl_store/ttl_map.rs:64-91 | for arbitrary times, a key keeps its latest value while its expiry is not before any later compaction |
| TtlMap.QueueRefinesLog | controller/src/ttl_store/ttl_map.rs:64-91 | after a compaction the queue holds exactly the unexpired inserts in order, stale tickets included |
| TtlMap.MapRefinesLog | controller/src/ttl_store/ttl_map.rs:52-91 | a key is present exactly if its last insert has not expired, with that value |
| TtlMap.EnsuredStay | controller/src/ttl_store/ttl_map.rs:46-50 | a map fed by get_or_insert_with has an empty queue and never evicts: each key keeps its first value |
| TtlMap.TtlMap.Insert | controller/src/ttl_store/ttl_map.rs:33-44 | the store is the replay of its log extended by the insert |
| TtlMap.TtlMap.GetOrInsertWith | controller/src/ttl_store/ttl_map.rs:46-50 | an existing value is returned, a missing key is added, and nothing is enqueued |
| TtlMap.TtlMap.Get | controller/src/ttl_store/ttl_map.rs:52-62 | with ordered times, the value of the last insert of the key exactly while its time plus the TTL is not before the reading; the queue then holds the tickets of exactly the unexpired inserts, in order |
| TtlMap.TtlMap.Compact | controller/src/ttl_store/ttl_map.rs:64-91 | the popping loop computes the eviction function |
| TtlList.SuffixOfPushed | controller/src/ttl_store/ttl_list.rs:27-51 | for arbitrary times, the list is a suffix of everything pushed |
| TtlList.KeptWhileLive | controller/src/ttl_store/ttl_list.rs:27-51 | for arbitrary times, an item stays in its place while its expiry exceeds every later compaction time |
| TtlList.ListRefinesLog | controller/src/ttl_store/ttl_list.rs:21-51 | with ordered times, reading yields exactly the unexpired items in order |
| TtlList.TtlList.Push | controller/src/ttl_store/ttl_list.rs:27-39 | the list is the replay of its log extended by the push |
| TtlList.TtlList.Iter | controller/src/ttl_store/ttl_list.rs:21-25 | with ordered times, the values of exactly the pushes whose time plus the TTL is later than the reading, in order |
| TtlList.TtlList.DropExpiredItems | controller/src/ttl_store/ttl_list.rs:41-51 | the popping loop computes the compaction function |
| TtlMultistore.OtherKeysUndisturbed | controller/src/ttl_store/ttl_multistore.rs:20-29 | no sequence of calls on other keys changes what a key has seen, and so its answers |
| TtlMultistore.KeysAreInserted | controller/src/ttl_store/ttl_multistore.rs:20-29 | a key has a list exactly if it was ever inserted |
| TtlMultistore.TtlMultistore.Insert | controller/src/ttl_store/ttl_multistore.rs:20-25 | each key has its own list holding the calls on that key, and the inner queue stays empty |
| TtlMultistore.TtlMultistore.Iter | controller/src/ttl_store/ttl_multistore.rs:27-29 | Some exactly if the key was ever inserted, and with ordered times for that key the values of exactly its unexpired inserts, oldest first |
| DnsServer.ClusterDnsServer.SetRecord | controller/src/dns/mod.rs:77-117 | an address that parses goes to the A store, one that does not is skipped, a text goes to the TXT store |
| DnsServer.ClusterDnsServer.LookupA | controller/src/dns/mod.rs:174-196 | a name without a dot does not exist; the host name of a backend, in any case and with or without a trailing dot, is answered with the last address set under its cluster and id while that is at most 60 s old |
| DnsServer.ClusterDnsServer.LookupTxt | controller/src/dns/mod.rs:149-173 | the host name of a backend is answered with exactly the texts set under its cluster and id less than 60 s ago, oldest first |
| DnsServer.AddressContinuity | drone/src/agent/backend.rs:57-70 | with 50 s of sleep between publications, and the time to publish and the delay together at most 10 s, each query for the host name from the first arrival to 60 s after the last is answered with the latest address, and each later one with none |
| Heartbeat.BeatIsRecent | core/src/messages/dns.rs:60-70 | beats at most a window apart keep the latest one inside the window |
| Scheduler.Scheduler.UpdateStatus | controller/src/scheduler.rs:29-42 | the table holds exactly the drones whose last message was ready, with its time |
| Scheduler.Scheduler.Schedule | controller/src/scheduler.rs:44-82 | the drones it may return are exactly those whose last message for the cluster says ready and is less than 5 s old, each can be drawn, and it fails exactly if there is none |
| Scheduler.ReadyIsCandidate | controller/src/scheduler.rs:44-82 | at every moment a drone is a candidate exactly if its latest report says ready and is less than 5 s old; one whose reports arrive less than 5 s apart is so for as long as they say ready |
| Scheduler.HeartbeatKeepsCandidate | drone/src/agent/mod.rs:105-131 | reports every 4 s with delays under 1 s are such arrivals |
| Naming.DnsFindsBackend | controller/src/dns/mod.rs:134-144 | a host name leads to its backend's record exactly if the id has no dot, both parts are in lower case and the cluster does not end in a dot |
| Naming.DnsFindsQualified | controller/src/dns/mod.rs:140-144 | with a trailing dot in the query the last condition is not needed |
| Naming.NameIsFound | controller/src/dns/mod.rs:134-144 | a query for a host name, in any case and with or without a trailing dot, is looked up under its id and cluster |
| Naming.EveryNameIsOne | controller/src/dns/mod.rs:134-144 | every query with a dot is the host name of some id and cluster |
| Naming.LowerExactly | controller/src/dns/mod.rs:134-134 | query names come in lower case: only the letters A to Z change, each to its small letter |
| Naming.ProxyFindsBackend | drone/src/proxy/service.rs:203-211 | the proxy extracts the id, with or without a port, exactly if neither part contains a colon |
| Naming.ProxyAgreesWithDns | drone/src/proxy/service.rs:203-211 | a dot-free subdomain extracted by the proxy is, in lower case, the name DNS looks up |
| Naming.RnameRoundTrip | controller/src/dns/rname_format.rs:3-10 | a mailbox name reads back as local part and domain if and only if the local part has no backslash |
| Naming.RnameRecovers | controller/src/dns/rname_format.rs:3-10 | every address whose local part has no backslash is formatted, is recovered from its formatted name, and has nothing quoted but the dots of its local part |
| CertRefresh.SleepUntilRefresh | drone/src/cert/mod.rs:194-235 | no wake-up overshoots the refresh date, wake-ups are at most an hour apart, and the last is on the date |
| CertRefresh.RefreshLoop | drone/src/cert/mod.rs:224-235 | while attempts fail, the loop attempts a refresh only when one is due: first on the refresh date, or at once if that has passed, and then an hour after each attempt |
| CertRefresh.AttemptsBeforeExpiry | drone/src/cert/mod.rs:224-235 | at least 360 h over 1 h plus the longest attempt, rounded up, failing attempts start before expiry, and exactly so many if all take that long |
| CertRefresh.RoundedUpIsMore | drone/src/cert/mod.rs:29-30 | that is no less than the quotient rounded down |

## Left out

- Respawning an id: backends are spawned under fresh ids and each id has at most one run at a time; the source proceeds even when the insert of a duplicate fails.
- A database call whose future is dropped has either taken effect before that or never does; a write that is carried out later is not modelled.
- ConnectionTracker.Tracker.IncrementConnections: says nothing about the connection map once a backend has had 2^32 connections open at once, where the counter wraps around.
- ConnectionTracker.Tracker.DecrementConnections: has the same limit.
- Naming.RnameRoundTrip: the reader knows the quoted-character form of section 5.1 of RFC 1035, not its three-digit decimal form.
- Engine calls that outlive the agent's thread: while that is stopped, the engine still starts, loses and inspects containers and a submitted route insertion is still carried out; other database writes are not.
- Overflow of dates and durations, and the errors it leads to.
- NATS, JetStream and JSON: messages are delivered, delayed or lost by the environment.
- Docker calls beyond container state, status and Die events: images, statistics, logs, container configuration.
- TLS, certificate loading, the ACME exchange, and what a successful refresh writes.
- HTTP forwarding, URI rewriting and copying of bytes in the proxy.
- SOA, CAA and AAAA answers, and the wire format of DNS.
- Drain requests, the command line, configuration, logging, retries and the development harness.
- Random choice among candidate drones is a parameter; its distribution is not modelled.
