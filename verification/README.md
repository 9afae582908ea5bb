# Nakama Agones fleet: a verified model

This project models the control plane of the Nakama Agones fleet in Dafny and proves what it
promises over every run. Five parts of the system are covered.

* **The fleet manager** (`pkg/fleetmanager`, `internal/state`). The durable state is a value
  (`FleetState`). Every transaction is a sequence of elementary changes (`FleetOps`); one
  invariant (`FleetInvariant`) is kept by each of them (`FleetPreserve`), and a relation between
  earlier and later states is kept too (`FleetHistory`). The passes of `Tick` are the loops of the
  source over maps in any order (`FleetPlacement`, `FleetTick`, `FleetTickWhole`). The heartbeat is
  a function with the loops that compute it (`FleetHeartbeat`, `FleetReports`). What the tick, the
  provider commits and the heartbeat leave is also stated as tables over the records' own fields,
  independent of the functions (`FleetTickTable`, `FleetProviderTable`, `FleetHeartbeatTable`). `FleetStore` is the
  transactional store with one method per transaction. `FleetProtocol` puts any number of managers,
  client transactions and provider instances into one transition system; `FleetRuns`,
  `FleetCoherence`, `FleetTrace` and `FleetSeats` hold the theorems about its runs.
* **The Agones client** (`Agones`): `Start` and `Stop` against an API server that loses requests
  and answers and lets others interfere.
* **Admission tickets** (`TicketText`, `Tickets`, `FleetAssignment`): the concrete text of a
  ticket, its verification and the assignment that issues it.
* **The alert engine** (`AlertKey`, `AlertEngine`, `AlertHistory`).
* **The enrollment controller** (`Enrollment`) and **the token file pair** (`TokenPair`).

`Basics` holds what they share. Conventions: identifiers are numbers: random identifiers are fresh (`issued` remembers every one
drawn) and their fixed-width text has the order of the numbers. Time is in whole seconds and one
clock never goes back; a transaction may use a time read earlier. Map iteration is an arbitrary
choice. Error texts, the record's own identifier fields and the worker's error field are not kept.
Integers are unbounded.

Assumptions of the protocol theorems, all stated in `FleetProtocol`: a provider request takes
effect or fails before its caller sees an outcome; a call that was left running by a crash takes
effect only before the lease it was issued under ends; an instance of a worker's name is created
only by `Start` of that worker; "missing" and "stopped" answers mean that no instance exists; a
definite error of `Start` other than 409 means that the call created nothing, which is what
`Agones.Start` proves of the client. All managers share one configuration. Any client transaction
is admitted that is a sequence of elementary changes and leaves the lease and the provider fields
alone; the methods of `FleetStore` prove that theirs are such steps. A crashed manager is one that
takes no further step.

## Model

| member | source | states |
|---|---|---|
| `FleetRuns.ClusterStaysWithinLimit` | pkg/fleetmanager/lifecycle.go:323-376 | in every reachable state every existing GameServer belongs to a counted worker and there are at most MaxInstances of them, through crashes, ambiguous creates and leader changes |
| `FleetRuns.LeadershipIsUnbroken` | pkg/fleetmanager/lifecycle.go:23-35 | a manager that leads in the middle of a tick has led without a break since it took the lease in that tick |
| `FleetRuns.CommitsFindTheirWorker` | pkg/fleetmanager/lifecycle.go:343-375 | a leader that commits a provider result finds its worker: the start commit overwrites only `starting`, reconcile `unknown`, poll an open or lost worker of the same instance, stop `stopping` |
| `FleetRuns.StopsOnlyEmptyWorkers` | pkg/fleetmanager/lifecycle.go:570-586 | every provider Stop is issued with Occupied = 0, and Occupied of that worker stays 0 for the rest of the run |
| `FleetRuns.StopsOnlyFinishedWorkers` | pkg/fleetmanager/lifecycle.go:572-584 | a Stop is issued under an unexpired lease, and to a drained worker only with its drain acknowledged, no players, all work finished and a fresh heartbeat |
| `FleetRuns.ClosedStaysEmpty` | pkg/fleetmanager/lifecycle.go:287-321 | stopping, stopped, lost and failed workers never host a room again and never leave those states |
| `FleetRuns.OnlyServingWorkersHost` | pkg/fleetmanager/lifecycle.go:190-193 | a worker that is not ready, suspect or draining hosts no unfinished allocation |
| `FleetRuns.RunIsCoherent` | pkg/fleetmanager/http.go:252-306 | in every reachable state: preparing iff exactly one open prepare_room, cancelling iff exactly one open cancel_room, draining without ack iff exactly one open drain; at most MaxRooms + 1 open commands per worker |
| `FleetRuns.RunIsBounded` | internal/state/state.go:136-144 | in every reachable state: keys and rooms unique, no user in two unfinished allocations, Occupied and PlayerCount within capacity, revision at most 7, every reference resolves to an existing serving worker |
| `FleetRuns.AllocationsOnlyClimb` | pkg/fleetmanager/manager.go:155-161 | over every run an allocation only moves up its rank, keeps key, room, roster and worker, and is frozen once terminal |
| `FleetRuns.RunIsSafe` | pkg/fleetmanager/lifecycle.go:276-285 | the state invariant, the fencing facts of every manager and the backing of every instance hold in every reachable state |
| `FleetRuns.RunTicketsWork` | pkg/fleetmanager/manager.go:503-567 | in every run a ticket decodes to the issued claims from issue until expiry and never after, and its seat is the user's place in the roster |
| `FleetProtocol.NextKeeps` | pkg/fleetmanager/lifecycle.go:235-272 | every step of every manager, client and provider keeps the global invariant and lets the state only evolve forward |
| `FleetProtocol.CreateKeeps` | pkg/fleetmanager/lifecycle.go:339-342 | an instance can appear only while the calling manager still leads, hence only for a counted worker |
| `FleetProtocol.TickKeeps` | pkg/fleetmanager/lifecycle.go:31-36 | a tick of a new leader leaves every other manager outlived by the clock and every instance backed |
| `FleetProtocol.PollCounts` | pkg/fleetmanager/lifecycle.go:484-568 | a poll takes a worker out of the count only when the provider said that its instance is gone |
| `FleetProvider.PollReplays` | pkg/fleetmanager/lifecycle.go:484-568 | the poll commit, on a worker that is open or lost, is a sequence of legal changes |
| `FleetProvider.StartReplays` | pkg/fleetmanager/lifecycle.go:343-375 | the start commit, on a starting worker, is a sequence of legal changes |
| `FleetProvider.ReconcileReplays` | pkg/fleetmanager/lifecycle.go:452-476 | the reconcile commit is a sequence of legal changes in any state |
| `FleetProvider.StopReplays` | pkg/fleetmanager/lifecycle.go:601-617 | the stop commit, on a stopping worker, is a sequence of legal changes |
| `FleetProvider.PollFits` | pkg/fleetmanager/lifecycle.go:391-409 | lifetime, health, endpoint and launch timeout only move a polled worker along the allowed edges |
| `FleetProviderTable.PollAgrees` | pkg/fleetmanager/lifecycle.go:484-568 | every outcome of a poll over raw fields: host, port, readiness, state, expiry, next check, rooms, commands and the block |
| `FleetProviderTable.PollAdmits` | pkg/fleetmanager/lifecycle.go:541-566 | a running instance with an endpoint makes a freshly reporting worker with good metrics eligible |
| `FleetProviderTable.StartAgrees` | pkg/fleetmanager/lifecycle.go:343-375 | every outcome of a start over raw fields |
| `FleetProviderTable.ReconcileAgrees` | pkg/fleetmanager/lifecycle.go:452-476 | every outcome of a reconciliation over raw fields |
| `FleetProviderTable.StopAgrees` | pkg/fleetmanager/lifecycle.go:589-617 | every outcome of a stop over raw fields |
| `FleetProviderTable.ConflictHoldsCreationBack` | pkg/fleetmanager/lifecycle.go:348-358 | after a 409 creation is blocked, and no tick and no request creates a worker while it is |
| `FleetPreserve.ApplyKeeps` | pkg/fleetmanager/manager.go:216-240 | every elementary change keeps the whole invariant |
| `FleetPreserve.ReplayKeeps` | internal/state/state.go:172-185 | every transaction keeps the whole invariant |
| `FleetHistory.ReplayEvolves` | internal/state/state.go:132-134 | every transaction moves allocations only upward, never reopens closed workers, never revives settled commands, never reuses an identifier |
| `FleetHistory.RevisionIsTheNumberOfChanges` | pkg/fleetmanager/manager.go:155-161 | the revision of an allocation grows by exactly the number of its phase changes |
| `FleetCoherence.RoomOrdersMatchPhase` | pkg/fleetmanager/manager.go:216-240 | number of open prepare or cancel commands of an allocation is 1 in the matching phase and 0 otherwise |
| `FleetCoherence.DrainOrdersMatchPhase` | pkg/fleetmanager/manager.go:470-479 | number of open drains of a worker is 1 while it drains without ack and 0 otherwise |
| `FleetCoherence.OpenOrdersAreBounded` | pkg/fleetmanager/http.go:340-349 | at most MaxRooms + 1 open commands per worker, by an injection into its rooms |
| `FleetCoherence.EveryRecordIsBounded` | pkg/fleetmanager/manager.go:252-260 | instances, rooms, players, revisions and references within bounds |
| `FleetPlacement.ChooseWorker` | pkg/fleetmanager/lifecycle.go:129-144 | the scan over workers in any order finds the eligible worker with a free room that has most rooms, least ID on ties |
| `FleetPlacement.SortWaiting` | pkg/fleetmanager/lifecycle.go:114-128 | the waiting allocations in the order preferred first, then creation time, then ID |
| `FleetPlacement.QueueUnique` | pkg/fleetmanager/lifecycle.go:120-128 | that order is a single sequence |
| `FleetPlacement.WaitingMeansFull` | pkg/fleetmanager/lifecycle.go:129-152 | an unpreferred allocation still waiting after the loop means that all eligible workers are full |
| `FleetPlacement.PlacementFifo` | pkg/fleetmanager/lifecycle.go:114-152 | the placed unpreferred allocations come before the waiting ones |
| `FleetPlacement.PlacedWellHosted` | pkg/fleetmanager/lifecycle.go:129-152 | every placed allocation has an eligible host, and the one it prefers |
| `FleetPlacement.WaitingForFullServer` | pkg/fleetmanager/lifecycle.go:129-152 | an allocation still waiting for a preferred worker finds it full or not eligible |
| `FleetPlacement.PlacementIsDeterministic` | pkg/fleetmanager/lifecycle.go:129-152 | placement does not depend on the order in which maps are visited |
| `FleetTick.TickWorkers` | pkg/fleetmanager/lifecycle.go:36-50 | lifetime drain, interrupted start, suspect and lost, for every worker, and exactly the rooms of lost workers fail |
| `FleetTick.TickAllocations` | pkg/fleetmanager/lifecycle.go:51-74 | the loop computes each allocation after the deadlines; `FleetTickTable` shows which are cancelled and why |
| `FleetTick.PruneAllocations` | pkg/fleetmanager/lifecycle.go:76-80 | exactly the terminal allocations older than a day are forgotten |
| `FleetTick.PruneCommands` | pkg/fleetmanager/lifecycle.go:81-85 | exactly the done commands an hour past their expiry are forgotten |
| `FleetTick.PruneWorkers` | pkg/fleetmanager/lifecycle.go:86-103 | exactly the uncounted workers older than a day that no unfinished allocation needs are forgotten, with their commands |
| `FleetTick.ReserveSeatsDue` | pkg/fleetmanager/lifecycle.go:104-113 | exactly the prepared rooms on eligible workers get their seats |
| `FleetTick.PlaceWaiting` | pkg/fleetmanager/lifecycle.go:114-152 | the loop computes the placement of the sorted queue |
| `FleetTick.ScaleUp` | pkg/fleetmanager/lifecycle.go:153-174 | one worker is requested exactly when demand exceeds booting capacity and limits allow |
| `FleetTick.ScaleDown` | pkg/fleetmanager/lifecycle.go:175-194 | idle drains and stops of every worker, never below MinInstances admitting workers |
| `FleetTickWhole.TickBody` | pkg/fleetmanager/lifecycle.go:31-196 | the whole transaction: refused exactly while another lease runs; else deadlines met, queue served in order, demand met, invariant kept, and every allocation, worker, placement and newcomer as the table says: cancelled exactly for a silent host, a dead preferred server or an elapsed deadline, with the reason; drained, stopped, suspected, lost, forgotten or created exactly on its conditions |
| `FleetTickTable.CancelledExactly` | pkg/fleetmanager/lifecycle.go:36-75 | an unfinished allocation is ended by a tick iff its host is silent, its preferred server dead, a reconnect deadline missed or its time over; else it keeps its error and, without a new phase, every field |
| `FleetTickTable.RoomsExpiryAgrees` | pkg/fleetmanager/lifecycle.go:36-74 | the first two passes leave every allocation as the table says, with the reason of each end |
| `FleetTickTable.DeadlinesAgree` | pkg/fleetmanager/lifecycle.go:51-113 | the passes up to placement agree with the table: terminal ones forgotten exactly after a day, prepared ones seated |
| `FleetTickTable.PassesAgree` | pkg/fleetmanager/lifecycle.go:175-194 | all passes together leave each worker as the table of its fields says |
| `FleetTickTable.SweepAgrees` | pkg/fleetmanager/lifecycle.go:86-103 | a worker is forgotten exactly when it is not counted for over a day and no unfinished allocation needs it |
| `FleetTickWhole.TickTableHolds` | pkg/fleetmanager/lifecycle.go:31-196 | rooms go to fit workers only, none waits or lacks seats beside a fit worker with room, and a worker is requested only for unmet demand |
| `FleetTickWhole.DemandIsMet` | pkg/fleetmanager/lifecycle.go:153-174 | after the tick creation is held back, or booting capacity covers the queue and the minimum |
| `FleetTickWhole.WorkerPassedSettles` | pkg/fleetmanager/lifecycle.go:175-194 | what one worker's way through all passes allows: why it drained, stopped, was lost or suspected |
| `FleetStore.Store.Tick` | pkg/fleetmanager/lifecycle.go:31-202 | the store after the tick transaction, with the whole table of outcomes |
| `FleetStore.Store.RenewLease` | pkg/fleetmanager/lifecycle.go:276-285 | the lease is renewed exactly by its unexpired holder |
| `FleetStore.Store.ReleaseLease` | pkg/fleetmanager/manager.go:111-119 | a stopping manager ends its own lease and no other |
| `FleetStore.Store.ClaimStart` | pkg/fleetmanager/lifecycle.go:325-338 | a start is claimed exactly by the holder on a requested worker |
| `FleetStore.Store.CommitStart` | pkg/fleetmanager/lifecycle.go:343-375 | the step-by-step commit computes the start commit and agrees with its table; nothing happens without the lead |
| `FleetStore.Store.SetLifetime` | pkg/fleetmanager/lifecycle.go:391-409 | expiry from the provider's TTL; a short-lived instance is stopped before it serves |
| `FleetStore.Store.CommitReconcile` | pkg/fleetmanager/lifecycle.go:452-476 | the step-by-step commit computes the reconcile commit and agrees with its table |
| `FleetStore.Store.CommitPoll` | pkg/fleetmanager/lifecycle.go:484-568 | the step-by-step commit computes the poll commit and leaves the worker, its rooms and the block as the poll table says |
| `FleetStore.Store.JudgeFound` | pkg/fleetmanager/lifecycle.go:508-566 | what a found instance makes of its worker, branch by branch; `FleetProviderTable.FoundAgrees` gives the fields it leaves |
| `FleetStore.Store.CheckStop` | pkg/fleetmanager/lifecycle.go:572-584 | a stop is allowed exactly when the recheck passes |
| `FleetStore.Store.CommitStop` | pkg/fleetmanager/lifecycle.go:589-617 | the step-by-step commit computes the stop commit and agrees with its table |
| `FleetStore.Store.Allocate` | pkg/fleetmanager/manager.go:162-196 | refuses, finds or creates as the scan allows; a new allocation waits with its deadline ahead; keeps the invariant; is a client step |
| `FleetStore.Store.Create` | pkg/fleetmanager/manager.go:262-297 | a new worker record with its optional waiting room on it, or nothing at all |
| `FleetStore.Store.Cancel` | pkg/fleetmanager/manager.go:197-215 | cancels for a member of the roster unless active: an unplaced room ends as cancelled, a placed one is closed by its host; repeated calls change nothing |
| `FleetStore.Store.Join` | pkg/fleetmanager/manager.go:327-348 | gives each roster user a seat with the reservation time once, and finds them afterwards |
| `FleetStore.Store.SetPlayers` | pkg/fleetmanager/manager.go:413-428 | player count within twice the rooms, or no change |
| `FleetStore.Store.Drain` | pkg/fleetmanager/manager.go:445-460 | begins a drain on a serving worker once |
| `FleetStore.Store.Delete` | pkg/fleetmanager/manager.go:429-444 | begins a drain on an empty, finished, serving worker |
| `FleetStore.Store.Bootstrap` | pkg/fleetmanager/http.go:160-176 | the first process binds the worker for good, within the launch timeout |
| `FleetStore.Store.Heartbeat` | pkg/fleetmanager/http.go:201-353 | commits exactly the heartbeat function or changes nothing; leaves worker, players and rooms as the report table says; keeps the invariant; answers with the least open commands in order |
| `FleetStore.Store.MarkNotified` | pkg/fleetmanager/lifecycle.go:692-699 | only the revision that was notified is recorded |
| `FleetRequests.FindAllocation` | pkg/fleetmanager/manager.go:166-180 | the scan in any order finds the keyed allocation, a real clash, or that none exists |
| `FleetRequests.AllocateRetries` | pkg/fleetmanager/manager.go:162-196 | a retry with the same key and roster never creates a second allocation and returns the first one's ID while it is unfinished |
| `FleetRequests.RetryAnswers` | pkg/fleetmanager/manager.go:166-180 | the exact set of answers a retry may get: the allocation always, busy iff a user is in another unfinished allocation |
| `FleetRequests.CancelCallsOff` | pkg/fleetmanager/manager.go:216-240 | a user's cancellation over raw fields: phase, error, time and the command to the host |
| `FleetRequests.NewRoomAdds` | pkg/fleetmanager/manager.go:181-183 | a new allocation over raw fields, with its deadline |
| `FleetHeartbeat.HeartbeatReplays` | pkg/fleetmanager/http.go:212-338 | a committed heartbeat is a sequence of legal changes |
| `FleetHeartbeat.HeartbeatOnly` | pkg/fleetmanager/http.go:241-251 | an accepted heartbeat changes no worker but its own, records its number and moves it only among running states |
| `FleetHeartbeat.ResultsReplay` | pkg/fleetmanager/http.go:252-306 | every list of command results is a sequence of legal changes |
| `FleetHeartbeat.RoomsCount` | pkg/fleetmanager/http.go:307-338 | the player count of a report is at most two per reported room |
| `FleetHeartbeatTable.HeartbeatAgrees` | pkg/fleetmanager/http.go:241-338 | an accepted report leaves its worker heard, its players counted, the rooms it mentions as reported and all others as its results left them |
| `FleetHeartbeatTable.TakenExactly` | pkg/fleetmanager/http.go:191-240 | which reports are taken and which refused, over raw fields: bounds, metrics, binding, number, rooms and own commands |
| `FleetHeartbeatTable.ReportsDecide` | pkg/fleetmanager/http.go:308-338 | a room completes iff it was assigned or active and is reported closed; it becomes active iff all its users are reported playing |
| `FleetHeartbeatTable.ClosedRoomsAreFreed` | pkg/fleetmanager/http.go:313-318 | the occupancy of the worker falls by exactly the rooms that closed |
| `FleetHeartbeatTable.PlayersAgree` | pkg/fleetmanager/http.go:307-338 | the player count is the sum over the reported rooms that are open and not closing |
| `FleetHeartbeatTable.EachResultAgrees` | pkg/fleetmanager/http.go:252-306 | the results take effect one after the other, each as its table says |
| `FleetHeartbeatTable.ResultAgrees` | pkg/fleetmanager/http.go:252-306 | every outcome of one result over raw fields: prepared, seated, withdrawn, ended, acknowledged, or retried after 4, 8, 16 and 32 seconds |
| `FleetReports.HeartbeatBody` | pkg/fleetmanager/http.go:201-353 | the loops of the transaction compute the heartbeat function for maps in any order |
| `FleetReports.CheckRooms` | pkg/fleetmanager/http.go:214-240 | the room check accepts exactly distinct rooms of this worker with distinct roster users and known phases |
| `FleetReports.HandleResults` | pkg/fleetmanager/http.go:252-306 | the result loop computes its function with fresh identifiers |
| `FleetReports.HandleRoom` | pkg/fleetmanager/http.go:308-338 | the room loop touches exactly the reported room and counts its players once |
| `FleetReports.Answer` | pkg/fleetmanager/http.go:340-349 | the answer holds the least due commands in order, at most 64, and all of them below that |
| `FleetTrace.OnlyAcceptedMatters` | pkg/fleetmanager/http.go:213-251 | duplicated, reordered and rejected heartbeats leave the same state as the accepted ones alone |
| `FleetTrace.AcceptedComeInOrder` | pkg/fleetmanager/http.go:213-251 | the accepted heartbeats of a worker carry strictly increasing numbers, whatever else happens in between |
| `FleetTrace.OutcomesCountOnce` | pkg/fleetmanager/http.go:252-306 | over any trace no command's outcome is applied twice |
| `FleetSeats.SeatRemembers` | pkg/fleetmanager/http.go:319-330 | over any reports of a room a seat knows whether its player is and ever was connected, and its reconnect deadline counts from the first miss, is not extended by further misses and ends with the return |
| `FleetSeats.DeadlinePassesExactly` | pkg/fleetmanager/lifecycle.go:62-69 | the reconnect deadline has passed exactly when the player was missing without a break for ReconnectSeconds |
| `FleetAssignment.FindAssignment` | pkg/fleetmanager/manager.go:508-521 | the scan in any order finds a most preferred allocation of the user |
| `FleetAssignment.TheUnfinishedOneIsFound` | pkg/fleetmanager/manager.go:508-521 | a user's unfinished allocation is the one found |
| `FleetAssignment.TicketIsSound` | pkg/fleetmanager/manager.go:526-566 | every claim names its record: worker, boot, room, allocation, reservation, seat in the roster; it expires after now and within 60 seconds, on a resume within 45 seconds and the reconnect deadline |
| `FleetAssignment.TicketIssuedExactly` | pkg/fleetmanager/manager.go:523-560 | a ticket is issued iff the room is assigned or active, its host reachable, and the user's seat can be taken or resumed |
| `FleetAssignment.HexNamesOne` | pkg/fleetmanager/token.go:29 | the text of an identifier names that identifier only |
| `FleetAssignment.TicketWorksUntilItExpires` | pkg/fleetmanager/manager.go:526-566 | an issued ticket is admitted with its claims before its expiry and refused from then on |
| `Tickets.TicketVerdict` | pkg/fleetmanager/token.go:36-71 | verification of a signed ticket returns exactly the issued claims within the 60 seconds before expiry and refuses at every other time |
| `Tickets.AdmittedExactly` | pkg/fleetmanager/token.go:47-71 | any token is admitted iff it has two parts, the second the code of the first, and the first admissible claims |
| `Tickets.ForgedIsRefused` | pkg/fleetmanager/token.go:52-58 | a token whose tag is not the code of its payload is refused |
| `Tickets.OtherKeyIsRefused` | pkg/fleetmanager/token.go:52-58 | a ticket signed under another key is refused whenever the codes differ |
| `Tickets.TicketFits` | pkg/fleetmanager/token.go:36-52 | every ticket fits the 4096 byte limit |
| `Tickets.ClaimsText` | pkg/fleetmanager/token.go:14-27 | the text of the claims, name by name in order |
| `Tickets.ClaimsRoundTrip` | pkg/fleetmanager/token.go:14-27 | reading written claims gives them back |
| `TicketText.Base64RoundTrip` | pkg/fleetmanager/token.go:35 | base64url decoding undoes encoding |
| `TicketText.LettersAreTheAlphabet` | pkg/fleetmanager/token.go:35 | the letters are the URL-safe alphabet of section 5 of RFC 4648 |
| `TicketText.GroupsKeepTheNumber` | pkg/fleetmanager/token.go:35 | four letters spell the number of their three bytes |
| `TicketText.StringRoundTrip` | pkg/fleetmanager/token.go:37 | reading a written JSON string gives it back, with every escape |
| `Agones.Start` | internal/agones/client.go:259-324 | a definite error other than 409 means this call created no GameServer; success means the GameServer of the returned UID has the desired configuration and the Secret exactly this one owner; on a calm server it creates, or finds again, or reports a conflict |
| `Agones.EnsureSecretOwner` | internal/agones/client.go:533-564 | success means the Secret's only owner is this GameServer |
| `Agones.CreateGame` | internal/agones/client.go:296-313 | a definite error means the POST created nothing; a calm server gives the GameServer |
| `Agones.Stop` | internal/agones/client.go:566-586 | success means that the GameServer of this UID is gone or being deleted, for good; deletes no other GameServer and no Secret but the one it alone owns; succeeds on a calm server |
| `Agones.CleanupAbsentSecret` | internal/agones/client.go:588-604 | drops only a Secret whose one owner is this UID; success means that no such Secret is left |
| `AlertEngine.Operations.Evaluate` | internal/console/alerts.go:253-353 | the loops compute the evaluation over the keys in order; it takes effect exactly when enabled, saved and not too large, and a message goes out exactly when there is something to say |
| `AlertEngine.Operations.Finish` | internal/console/alerts.go:355-385 | the second commit records the notices and ends noticed recoveries exactly when the send succeeded, the save succeeded and the revision is unchanged |
| `AlertEngine.Operations.Change` | internal/console/alerts.go:154-186 | a configuration change is committed exactly on the expected revision |
| `AlertHistory.FiringNeedsAnUnbrokenBreach` | internal/console/alerts.go:299-314 | over every run an alert starts firing exactly at the end of an unbroken run of committed, known, breached evaluations with gaps of at most 20 s that spans HoldSeconds |
| `AlertHistory.RecoveryNeedsAnUnbrokenCalm` | internal/console/alerts.go:315-330 | recovery needs exactly the same of known healthy samples; unknown or missing samples never clear it |
| `AlertHistory.HistoryAlternates` | internal/console/alerts.go:299-349 | in every reachable state the entries of a key alternate and the last one is its present state |
| `AlertHistory.HistoryIsKept` | internal/console/alerts.go:347-349 | the history is the last 200 of the old entries followed by one for each key that turned |
| `AlertHistory.NoticesAreSpaced` | internal/console/alerts.go:332-346 | an attempt comes at least 30 s after the last one, and a firing notice at least CooldownSeconds after the last recorded notice, over deletion and re-creation |
| `AlertHistory.AttemptsAreSpaced` | internal/console/alerts.go:332-346 | any two attempts about a key are at least 30 s apart |
| `AlertHistory.NoticesGoOut` | internal/console/alerts.go:331-346 | over every run an alert that fires, unnoticed within the cooldown and rested for 30 s, is in the message unless twenty earlier keys fill it; so is the recovery of a noticed alert |
| `AlertKey.ForgottenExactly` | internal/console/alerts.go:341-345 | a key is forgotten iff it had no trustworthy sample for a day, does not fire and owes no recovery notice |
| `AlertKey.LevelTellsState` | internal/console/alerts.go:265-330 | the level shown tells the sample and whether the alert fires |
| `AlertHistory.EvaluationOfKey` | internal/console/alerts.go:262-352 | what one evaluation means for one key, among all others |
| `Enrollment.InstallStartsAtMostOnce` | scripts/node_enrollment_controller.py:507-561 | over all crashes, lost answers and controllers the INSTALL script starts at most once per object UID |
| `Enrollment.SecretIsGoneAtInstall` | scripts/node_enrollment_controller.py:394-411 | when INSTALL starts the referenced Secret is gone |
| `Enrollment.InstallNeedsApproval` | scripts/node_enrollment_controller.py:485-520 | INSTALL starts only for an object with action Join whose preflight, earlier in the run, allowed joining |
| `Enrollment.InstallHappens` | scripts/node_enrollment_controller.py:438-561 | a run through scan, preflight, approval and join reaches INSTALL |
| `Enrollment.PhaseNeverFalls` | scripts/node_enrollment_controller.py:438-561 | under compare-and-swap the phase rank of an object never falls |
| `Enrollment.DecisionsGoUp` | scripts/node_enrollment_controller.py:438-483 | no branch of reconcile writes a lower phase, because actions only advance |
| `Enrollment.DecisionTable` | scripts/node_enrollment_controller.py:438-478 | what a reconciliation begins or ends, exactly, by action and phase |
| `Enrollment.SameVersion` | scripts/node_enrollment_controller.py:223-227 | a status write succeeds only on the very version that was read |
| `TokenPair.CredentialStore.Install` | scripts/sync_nakama_token.py:335-379 | the outcome for every pattern of failing operations; every state on the way has each file wholly old or wholly new, metadata first; a failed token rename with recovery restores the old pair; success leaves the new pair; refused exactly for an earlier expiry of the same identity |
| `TokenPair.ValidMeansDescribed` | scripts/sync_nakama_token.py:382-402 | a pair is valid iff the metadata describes the token and has not expired |
| `TokenPair.InstalledIsValid` | scripts/sync_nakama_token.py:345-402 | an installed pair is valid until it expires |
| `TokenPair.ReorderedRenames` | scripts/sync_nakama_token.py:332-333 | renames that reach the disk in another order still leave such a state |
| `TokenPair.NoMixtureIsValid` | scripts/sync_nakama_token.py:335-402 | at no crash point is a mixture of two different tokens' files valid |
| `TokenPair.ExpiryNeverGoesBack` | scripts/sync_nakama_token.py:335-349 | from a valid pair of the same identity the expiry never goes back, wherever a crash falls |

## Left out

- HTTP routing, JSON decoding of requests, bearer tokens, TLS, SQL storage, SSH and file permissions: input and output around the modelled logic.
- Kubernetes manifests, installer scripts, console projections, log queries and the web pages: they copy fields.
- Fair service of provider work: a refused stop does not move the next check, so the same worker may be picked again; which due worker is picked is left open.
- Allocation deadlines between ticks: `Join` gives seats without looking at the expiry.
- Provider requests that take effect after their caller saw an unknown outcome: the count of instances is not claimed for them.
- Configuration that differs between managers, and capacity policy changes with their audit: `rooms` may change at any time, limits are fixed.
- Request keys of the form `create:` with the identifier of a worker that does not exist yet: identifiers cannot be guessed.
- Callbacks, notifications and the runtime hooks of the game server framework: library calls.
- 64-bit overflow of times and counters.
- FleetStore.Store.Heartbeat: the agent token check and the response fields besides the commands are not modelled.
- FleetStore.Store.Bootstrap: the bootstrap token and build hash check are not modelled.
- Tickets.TicketVerdict: claims written in another JSON layout than the issuer's own are refused by the model, and texts that are not valid UTF-8 are not considered.
- Agones.Start: the comparison of the GameServer's single settings is one configuration value, and owners of a Secret, once written, are assumed not to be changed by others.
- Unmodelled steps of the alert engine: the reading of the console snapshot into samples, the message text and the audit trail.
- Enrollment.InstallStartsAtMostOnce: scanning, preflight and SSH results are open choices; labels and owners of a Secret are assumed not to change.
- Terminal enrollment phases are not absorbing among themselves, because failing a task rewrites whatever it finds; node retirement is not modelled.
- TokenPair.CredentialStore.Install: staging files are private names; only the two published files are modelled.
