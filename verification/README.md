# Suburban bus: a verified model of the boarding, ticketing and departure protocol

The simulation has any number of passenger parties (an adult, perhaps with a child thread), K ticket offices, N bus
drivers and one dispatcher. They are separate processes that share one record in memory under one mutex, and meet through
counting semaphores and four message queues. People are counted in about ten separately updated counters and in the
fields of each bus, and the updates that belong together are spread over critical sections of different processes.

The project models that as follows.

- `Domain`, `SharedRecord`: passengers, messages, validators, and the shared record as a value, with one function for
  what each critical section does to it.
- `SharedMemory`: the record on the heap (`Shm`), one method per critical section with the loops of the source, each
  proved to do to the record what `SharedRecord` says; and the ticket desk with the drain loop (`TicketDesk`).
- `Protocol`: the whole system as a step system. Every process has a program counter and the values it carries from one
  critical section to the next. One step is one critical section, one semaphore operation or one queue operation, so all
  the windows of the source are there: approved and not yet seated, active bus switched and not yet departed, bus away,
  ticket issued and not yet received, closing check passed and still blocked in receive. Crashes of drivers, early
  departure, closing, the watchdog, the end test, termination and shutdown are steps too. N, K, bus capacities, queue
  limits and the number of parties are symbolic; a run is any interleaving.
- `Invariants`, `Channels`, `Parts`, `PartySteps`, `DriverSteps`, `OfficeSteps`, `DispatcherSteps`, `Reachability`: one
  global invariant over all program counters, queues, semaphores and counters, and the proof that each step keeps it.
- `FlowCharts`: the control flow of each process with the conditions on the record's fields, and what each can be stopped by.
- `Conservation`, `Transport`, `Capacity`, `Tickets`, `Closing`, `Fleet`, `Lifecycles`, `Progress` (with `Frames`): what
  follows for every run.
- `Witness`: concrete runs in which main's drain test fires early, the simulation ends with a party left behind, the
  shutdown counts a person twice or lets a bus overfill, and two buses take passengers at the same time.
- `Handshake`: the condition-variable handshake of adult and child inside one passenger process.
- `PidTable`: main's growable table of passenger pids with swap-remove.
- `LockOrder`: the binary semaphores with lock and unlock as separate steps. Each function that takes one is the sequence
  of its operations, the semaphores have no order of their own, and what a process holds is computed from the operations
  it has executed; `LockPlaces` shows that the steps of `Protocol` are pieces of these sequences.

Some fields of the model are history, written and never read by any process: how many tickets were issued and denied to a
party and for how many seats (`issued`, `sold`, `denied`), its boardings (`rides`: a bus, and the values of the next two
fields at the time), how often a bus's load was credited (`trip`) and how often it departed (`journey`), `entryWoken`,
`ticketsWoken`, and `overcount`, the people whom the shutdown credits although their bus had credited them on leaving.
Party number i has pid i + 1.

What the proofs found out about the code:

- Conservation is exact only with two corrections, both explicit in `Conservation.PeopleConserved`: people between
  counters (created and not yet in the station, or turned away and not yet charged), and loads of buses at the station only.
- The sum that the final statistics and main's drain test compare with `created` adds parties (`passengers_in_office`)
  to people and counts travelling people twice; `Conservation.PrintedSumConsistentIff` says exactly when it still agrees,
  `Transport.DrainTestTrustedIff` when main's test can be trusted, and `Witness.DrainTestMayFireEarly` gives a run in
  which it succeeds while a counted party has not reached the station yet.
- `check_simulation_end` may end the simulation while a counted party stands between counters
  (`Witness.DrainBranchMayAbandon`); comparing three counters would have told (`Conservation.DrainedForGoodIff`).
- The shutdown reconciliation counts people on travelling buses a second time: `Transport.ReconciliationIff` and
  `Witness.ShutdownMayDoubleCount`.
- The shutdown also clears the count of a bus that stays at the station with its people on board, so a driver that
  still holds a request may then take too many: `Capacity.PeopleFitIff` and `Witness.BusMayOverfill`. Bikes stay within
  bounds, as their count is not cleared (`Capacity.BikesFitAlways`).
- Only the active bus takes passengers, if and only if bus 0 does not register while another live driver works
  (`Fleet.OneBusAtATimeIff`). It can: the watchdog may make another bus active before bus 0 registers, and the late
  registration takes the active bus from a driver at work (`Witness.TwoBusesMayWork`).
- An adult with a child that leaves without boarding hangs in the join: `Handshake.JoinReturnsIff`.
- `boarding_allowed` is never cleared anywhere, so until the shutdown nobody who entered the station leaves it on foot.

Where `RAPORT.md` and the code disagree the model follows the code: the report clears a bus's counts on departure, the
code on return; the report lets the passenger release its ticket-queue slot, in the code the office does; the report has
`enter_station` succeed even if the station closed meanwhile, the code fails; the report ends a passenger whose boarding
is refused with result 0, the code tries again; the report omits the ticket check and the dispatcher's block from
`can_board`; it increments `total_passengers_created` for refused arrivals too, the code does not.

## Model

| member | source | states |
|---|---|---|
| `Domain.InitPassenger` | src/passenger.c:109-145 | For any random numbers the new passenger is a well-formed adult whose seat count is 2 exactly with a child, who never has both child and bike, who holds a ticket exactly as a VIP, and whose VIP, bike and child flags fall in the configured percentages |
| `Domain.WellFormedInfoIsAccepted` | src/ticket_office.c:43-74 | Whatever such a passenger sends passes the office's two validators and the driver's (src/driver.c:91-119), and it occupies exactly its seat count |
| `Domain.NextRequest` | src/driver.c:427-429 | The driver receives a request of the lowest type, so a VIP first, and the oldest of that type; it waits exactly when nothing is receivable |
| `Domain.NextRequestIsTheOne` | src/ipc.c:549-552 | msgrcv with a negative type leaves no choice: the message so described is unique |
| `SharedRecord.NextBus` | src/driver.c:470-479 | The search for the next bus returns the nearest bus at the station in cyclic order, and -1 only if there is none |
| `SharedRecord.SwitchMeaning` | src/driver.c:473-491 | The cyclic search misses no bus: it yields -1 if and only if every other bus is away, never the departing bus, and of all buses at the station the one fewest places ahead |
| `SharedRecord.FirstLive` | src/dispatcher.c:256-262 | The watchdog's choice is the lowest bus at the station with a registered driver, -1 only if there is none |
| `SharedMemory.Shm.InitSharedState` | src/dispatcher.c:100-145 | The loops produce the initial record: everything zero, all buses idle at the station with doors closed, bus 0 active |
| `SharedMemory.Shm.CheckAndApprove` | src/driver.c:131-136 | A request is admitted if and only if the party has a ticket or is a VIP, boarding is allowed, the bus is at the station and open and has the seats and, for a bike, the bike place; only an admission changes the record |
| `SharedMemory.Shm.SeatPassenger` | src/driver.c:144-160 | Seating moves people and creates none: boarded + waiting is unchanged if the party was waiting, and loads at the station grow by exactly what boarded grows |
| `SharedRecord.ApprovedFits` | src/driver.c:131-149 | Over the two regions of one boarding an approval is a promise of room that the seating keeps: afterwards the bus is within its capacities, nobody more is entering, and the bus gained exactly what the waiting lost |
| `SharedMemory.Shm.DepartBus` | src/driver.c:210-221 | A departure transports people and creates none: transported + loads of buses at the station is unchanged |
| `SharedMemory.Shm.ReturnBus` | src/driver.c:231-244 | The return empties and reopens the bus without changing the loads at the station; afterwards the active bus exists and stands at the station |
| `SharedMemory.Shm.SwitchActive` | src/driver.c:469-491 | The search loop makes the nearest other bus at the station active, or none |
| `SharedMemory.Shm.ShouldDepart` | src/driver.c:267-303 | A bus goes if and only if it is full and is to go when full, or has people and its time has come or an early departure was asked for; that request is used up if and only if it is the only reason to go |
| `SharedMemory.Shm.CloseStation` | src/dispatcher.c:171-189 | Closing is idempotent: closing what is closed changes nothing, and only the first closing asks for the wake-ups |
| `SharedMemory.Shm.ClearDeadDrivers` | src/dispatcher.c:231-250 | Exactly the registered drivers reported dead lose their pid, their doors are closed, all other pids stay, and nobody is moved |
| `SharedMemory.Shm.CheckDriverHealth` | src/dispatcher.c:228-282 | In terms of pids and reports: dead drivers are cleared; if the active bus has no driver or a dead one, the lowest bus at the station with a registered driver not reported dead becomes active and opens, or -1 if there is none; otherwise the active bus stays; no other living driver's bus changes |
| `SharedRecord.WatchdogMeaning` | src/dispatcher.c:228-282 | The same for the watchdog step of the whole system |
| `SharedMemory.Shm.AllBusesAtStationAndEmpty` | src/dispatcher.c:192-199 | True exactly when every bus is at the station, empty and with nobody entering |
| `SharedMemory.Shm.CheckSimulationEnd` | src/dispatcher.c:316-339 | Over if and only if the queue-fill mode is off and either the simulation has been stopped or spawning has stopped, nobody waits, no visit to the office is open and every bus is at the station with nobody on board or entering |
| `SharedMemory.Shm.OnBusTotal` | src/dispatcher.c:356-359 | The loop adds up the passenger counts of all buses |
| `SharedMemory.Shm.DrainIsComplete` | src/main.c:1202-1215 | main's drain test as a property of the record |
| `SharedMemory.Shm.Shutdown` | src/dispatcher.c:480-500 | The shutdown loop folds every positive bus count into transported and clears it, and stops the simulation |
| `SharedMemory.TicketDesk.DrainQueueOnClose` | src/ticket_office.c:148-175 | With no new request the queue ends empty, and each removed request released one slot, was counted denied once, left the office once and was refused by an answer to its own sender, in queue order |
| `PartySteps.PartyKeeps` | src/passenger.c:357-574 | Every step of a passenger process keeps the global invariant |
| `DriverSteps.DriverKeeps` | src/driver.c:339-501 | Every step of a driver keeps the global invariant |
| `OfficeSteps.OfficeKeeps` | src/ticket_office.c:211-290 | Every step of a ticket office keeps the global invariant |
| `DispatcherSteps.CloseKeeps` | src/dispatcher.c:171-189 | Closing keeps the global invariant |
| `DispatcherSteps.WatchdogKeeps` | src/dispatcher.c:228-282 | A watchdog round keeps the global invariant |
| `DispatcherSteps.WatchdogRows` | src/dispatcher.c:264-269 | On reassignment the watchdog opens no door that was not open: a live bus at the station is open already |
| `DispatcherSteps.FoldSplits` | src/dispatcher.c:485-493 | What the shutdown folds in is the load at the station plus the load already credited on leaving |
| `DispatcherSteps.ShutdownKeeps` | src/dispatcher.c:480-500 | The shutdown keeps the global invariant, whose transport ledger then carries the double credit |
| `Reachability.InitHolds` | src/dispatcher.c:100-145 | Every initial state, with any parties, buses and offices, satisfies the global invariant |
| `Reachability.StepKeeps` | src/dispatcher.c:443-476 | Every step of any process, and every fault, keeps it |
| `Reachability.RunHolds` | src/dispatcher.c:397-500 | Every state of every run satisfies it |
| `Conservation.OneFateEach` | src/passenger.c:435-559 | A counted party is in exactly one of: between counters, waiting, boarded, left early |
| `Conservation.PeopleConserved` | src/passenger.c:435-559 | In every state of every run created = transported + waiting + loads of buses at the station + left early + people between counters, less the shutdown's double credit, which is zero before shutdown; and created = adults + children |
| `Conservation.CountersMeanWhatTheySay` | src/passenger.c:151-153 | waiting, in office, left early and boarded equal at all times the seats or parties in those stages, and are never negative |
| `Conservation.AbandonNeverClamps` | src/passenger.c:549-552 | The clamp to zero on leaving the station never changes a value |
| `Conservation.SeatNeverClamps` | src/driver.c:150-153 | The clamp to zero on seating a party never changes a value |
| `Conservation.PrintedSumGap` | src/dispatcher.c:356-367 | In every state of every run, after the shutdown too, created less the printed sum is exactly people between counters less office visits less travelling loads less the shutdown's double credit |
| `Conservation.PrintedSumConsistentIff` | src/dispatcher.c:362-367 | The consistency test of the final statistics, made after the shutdown (src/dispatcher.c:481-504), passes if and only if those four cancel |
| `Conservation.DrainCompleteIff` | src/main.c:1202-1215 | In every state, with nobody waiting or in an office, main's test passes if and only if the people between counters are as many as those counted twice |
| `Transport.DrainTestTrustedIff` | src/main.c:1202-1218 | A passing test means that everyone created has been carried or has left if and only if nobody is counted twice; before the shutdown, if and only if every bus away is empty, which main could read in the same region |
| `Conservation.DrainBranchMeans` | src/dispatcher.c:334-336 | When the end test takes its drain branch, boarded = transported, nobody waits, no office visit is open, and created - transported - left early is exactly the people between counters |
| `Conservation.DrainedForGoodIff` | src/dispatcher.c:334-336 | That branch leaves nobody behind if and only if created = transported + left early, three counters the dispatcher could have compared |
| `Witness.DrainBranchMayAbandon` | src/dispatcher.c:334-336 | A run in which the branch is taken while a counted party has yet to queue for its ticket, and the statistics printed after the shutdown then disagree with created |
| `Witness.DrainTestMayFireEarly` | src/main.c:1215-1218 | A run in which main's drain test passes while a counted party has not reached the station yet, hidden by a travelling passenger |
| `Witness.ShutdownMayDoubleCount` | src/dispatcher.c:485-493 | A run after which two people are transported though one boarded |
| `Transport.CapacityHolds` | src/driver.c:69-83 | In every state of every run a bus's passenger count plus the seats approved and not yet taken are at most P, its bike count likewise at most R; one party at most is entering (exactly while approved and not seated, and only at the station) and nobody is when the bus leaves or is away |
| `Capacity.StepFollowsBus` | src/driver.c:144-160 | Short of the shutdown every step of every process changes the count of a bus at the station exactly as the people aboard, whom the model knows by their boardings since the bus last departed; past journeys never change |
| `Capacity.PeopleFitBefore` | src/driver.c:69-83 | Before the shutdown no journey of any bus has more people than seats, the party approved and not yet seated included, and the count of a bus at the station is the number of people aboard |
| `Capacity.StepTellsIff` | src/dispatcher.c:485-493 | From any reachable state whose counts are the people aboard, each step keeps it so if and only if it is not a shutdown that finds people on a bus at the station |
| `Capacity.CountsTellIff` | src/dispatcher.c:485-493 | Throughout a run the counts are the people aboard if and only if the shutdown, if there is one, finds every bus at the station empty, which it could read in the same region |
| `Capacity.PeopleFitAlways` | src/driver.c:69-83 | In a run whose shutdown finds every bus at the station empty, or without one, no journey ever has more people than seats |
| `Capacity.CountsAfterShutdown` | src/dispatcher.c:485-493 | After a shutdown the people aboard a bus are its count plus, until it departs, the count that the shutdown cleared |
| `Capacity.PeopleFitIff` | src/driver.c:72-76 | No journey of a run ever has more people than seats if and only if on every bus that has not left since the shutdown the cleared count and the count since fit together into the seats |
| `Capacity.BikesFitAlways` | src/driver.c:79-83 | In every state of every run, after the shutdown too, no journey of any bus has more bikes than places |
| `Witness.BusMayOverfill` | src/dispatcher.c:485-493 | A run in which a bus with one seat takes a second person: the shutdown clears the count of the full bus, and its driver then admits a request it already holds |
| `Transport.DoorsExclusive` | src/driver.c:137-163 | Each of the two entrances holds at most one party, over all buses |
| `Transport.CarriedExactlyOnce` | src/driver.c:206-248 | transported is the seats of the parties whose load has been credited, by a departure or by the shutdown (src/dispatcher.c:485-493), each once; the count of a bus at the station is the parties that boarded it since; nobody boards twice |
| `Transport.BoardedBalance` | src/driver.c:145-154 | Before shutdown boarded = transported + loads of buses at the station |
| `Transport.BikesAreAccounted` | src/driver.c:146-148 | In every state of every run the bike count of a bus at the station is the bikes of the parties that boarded it since it last departed |
| `Transport.LoadFrozen` | src/driver.c:221-231 | While a bus is away nobody changes its load |
| `Transport.ClearedIsCredited` | src/driver.c:206-248 | Over a whole journey, whatever happens meanwhile short of the shutdown, the people that the return clears are as many as the departure credited, and the return credits nobody |
| `Transport.ShutdownAccount` | src/dispatcher.c:480-500 | The shutdown credits everyone on any bus, the travelling ones a second time, and empties every bus |
| `Transport.OvercountFinal` | src/dispatcher.c:481-481 | The simulation never restarts, and the double credit never changes after the shutdown |
| `Transport.ReconciliationIff` | src/dispatcher.c:482-493 | From the shutdown on, through boardings in progress and final departures (src/driver.c:358-375), transported exceeds its due by exactly the load that was away; so the account holds if and only if every bus away was empty |
| `Closing.NobodyComesOrGoes` | src/passenger.c:222-268 | With the station closed no party starts to wait, and none stops waiting by its own step before the shutdown |
| `Closing.InsideAfterClosing` | src/dispatcher.c:171-189 | From the closing on, in every run: it stays closed, the waiting only shrink, boarded + waiting never grows and until the shutdown stays the same |
| `Lifecycles.DriverLeftFor` | src/driver.c:357-379 | In every run a driver on its way to the end, final departure included, was at the top of its loop in an earlier state in which the simulation was over and not (the station closed with people waiting); no other way leads out of the loop |
| `Lifecycles.NobodyLeftOnBus` | src/driver.c:370-375 | No driver ends with people counted on its bus: the final departure takes them |
| `Lifecycles.SignalNeverLost` | src/driver.c:296-300 | In every run an early-departure signal stays until the driver departs with people |
| `Lifecycles.OpenStationWelcomes` | src/ticket_office.c:137-144 | While the simulation runs and the station is open, in every run: no office drains or ends, no ticket is denied, no entry fails, and no party is turned away or leaves unserved (src/passenger.c:402-414, 447-502) |
| `Lifecycles.NoWelcomeFor` | src/ticket_office.c:229-235 | An office that drains or has ended, a denied ticket or a party turned away means that the station was closed or the simulation over in the state before already |
| `Lifecycles.ClosingStopsSpawning` | src/dispatcher.c:173-176 | In every state of every run a closed station is not open and spawning has stopped |
| `Lifecycles.EndTestIff` | src/dispatcher.c:467-470 | In every run the end test ends the dispatcher's loop if and only if spawning has stopped, nobody waits, no visit is open and every bus is at the station with nobody on board or entering |
| `Progress.PartyProgress` | src/passenger.c:483-535 | Each step of a party lowers a rank of at most 200, except another attempt to board while the simulation runs: so every party comes to its end after the shutdown |
| `Progress.DriverProgress` | src/driver.c:357-495 | Each step of a driver lowers a rank, except another round while the simulation runs or a closed station has people waiting; it never has to wait for its own entrance to clear (src/driver.c:189-204) |
| `Progress.OfficeProgress` | src/ticket_office.c:229-283 | Each step of an office lowers its rank plus five times the queue length, except another round while the station is open; and it ends only on finding the queue empty |
| `Progress.EntranceFreed` | src/dispatcher.c:183-184 | Once the closing has reset the semaphore no party is stopped at the station entrance, up to a thousand parties |
| `Progress.TicketSlotsFreed` | src/dispatcher.c:185-185 | Nor for a ticket slot, while fewer than a thousand requests and reservations are under way |
| `Closing.NobodyWaitsAfterDriverStops` | src/driver.c:250-263 | If a driver stops with the station closed, no party waits then or at any later point of the run |
| `Closing.EntryRetrySound` | src/passenger.c:483-502 | A failed attempt to enter means the station is closed for good, success is always the first attempt, a party charged at the attempt limit was never waiting, and each departed party is charged once |
| `Closing.AtMostOneTicketPerOffice` | src/ticket_office.c:229-283 | However long a run goes on after the closing, at most one more ticket per office is issued |
| `Tickets.NoBoardingWithoutTicket` | src/driver.c:46-49 | A party that rides or waits to board is a VIP or was issued exactly one ticket, for its own seats; no party boards twice or is answered twice |
| `Tickets.RequestsAreTruthful` | src/passenger.c:290-308 | A queued boarding request states its sender's current data, its ticket flag is true and paid for, and its priority is VIP exactly for a VIP |
| `Tickets.VisitsAccounted` | src/ticket_office.c:89-109 | In every state tickets issued, tickets denied and parties in the office add up to the parties that joined the office: each visit has one outcome |
| `Tickets.SalesCoverBoarding` | src/ticket_office.c:105-109 | In every state boarded people less boarded VIPs are at most the people sold tickets |
| `Tickets.NothingDiscarded` | src/driver.c:431-435 | Every queued boarding request and every ticket request in service (src/ticket_office.c:257-261) passes validation, so none is silently dropped |
| `Tickets.DeniedOnlyForRoom` | src/driver.c:41-88 | A live driver refuses a party only for want of seats or bike space, never for its ticket, a closed door or an absent bus |
| `Tickets.AnswersMatch` | src/passenger.c:310-326 | The boarding answer a party receives is about its own current request, tells truly whether and where it is seated, and is the only message about it anywhere |
| `Tickets.TicketAnswersMatch` | src/passenger.c:187-217 | The same for the office's answer: it is approved exactly if a ticket was issued to that party |
| `Tickets.OneMessageEach` | src/passenger.c:303-324 | A waiting party has exactly one message (queued, in service or answered), any other party none, on both channels |
| `Tickets.BoardingBounded` | src/passenger.c:297-324 | Free boarding slots plus holders are always the limit; requests, requests in service and answers together never exceed it |
| `Tickets.TicketsBounded` | src/passenger.c:166-176 | Until the closing resets the semaphore, free ticket slots, reservations, queued requests and slots owed (src/ticket_office.c:239-255) add up to the limit |
| `Fleet.SwitchServes` | src/driver.c:469-493 | A departing driver leaves no bus active if and only if every other bus is away, and the fleet stays served |
| `Fleet.ReturnStep` | src/driver.c:239-243 | Every return leaves an active bus that stands at the station: the returning one or the old one |
| `Fleet.WatchdogChoice` | src/dispatcher.c:252-278 | The watchdog takes the active bus away without a successor only if every bus whose driver is still registered is away, and a successor stands at the station with a registered driver |
| `Fleet.WatchdogServes` | src/dispatcher.c:228-282 | A watchdog round keeps the fleet served: with no bus active afterwards, every live bus is departing or away |
| `Fleet.NeverStranded` | src/driver.c:469-493 | From any state with all drivers registered and a bus active, in every run, crashes and reassignments included: whenever no bus is active every live bus is departing or away |
| `Fleet.OpenExactlyWhenServed` | src/driver.c:498-501 | A bus is open exactly if it is at the station with a registered driver, away exactly while its driver travels, and its driver is unregistered only before starting, after ending or crashed |
| `Fleet.StartsWhenActive` | src/driver.c:380-399 | A driver starts to work only on finding its bus active |
| `Fleet.StepExclusiveIff` | src/driver.c:339-352 | From any reachable state in which only the active bus's driver works, each step of any process keeps it so if and only if it is not bus 0 registering while another live driver works |
| `Fleet.OneBusAtATimeIff` | src/driver.c:395-399 | Throughout a run only the active bus takes passengers if and only if bus 0 never registers while another live driver works; through switches, returns, crashes, other registrations and watchdog rounds |
| `Fleet.OneBusAtATime` | src/driver.c:395-399 | And then no two live drivers are at work at the same time |
| `Witness.TwoBusesMayWork` | src/driver.c:349-351 | A run in which bus 0 registers after the watchdog has made bus 1 active, and both drivers then receive passengers |
| `Handshake.ChildOnlyWithAdult` | src/passenger.c:54-68 | In every interleaving, spurious wakeups included, the child has boarded only if the adult has |
| `Handshake.Progress` | src/passenger.c:92-105 | Every step but a spurious wakeup decreases a measure |
| `Handshake.NeverStuck` | src/passenger.c:329-333 | If the adult boards, some thread can go on until both have ended, and then the child has boarded: no lost wakeup |
| `Handshake.RunsAreShort` | src/passenger.c:47-71 | A run is longer than 62 steps only by what its spurious wakeups add, at most three steps each |
| `Handshake.JoinNeverReturns` | src/passenger.c:449-458 | If the adult leaves without boarding, the child never ends and the join never returns |
| `Handshake.JoinReturnsIff` | src/passenger.c:97-104 | The join returns in some run if and only if the adult boards |
| `PidTable.SwapRemovesOne` | src/main.c:221-221 | Swapping the last entry in removes exactly the one entry |
| `PidTable.WithoutFirst` | src/main.c:218-225 | Reaping removes one occurrence of the pid, and nothing if it is not tracked |
| `PidTable.Tracker.TrackPassengerPid` | src/main.c:33-56 | Tracking appends the pid, through the first allocation and every doubling; on a failed allocation the contents stay and -1 is returned; count never exceeds capacity |
| `PidTable.Tracker.HandleChildExit` | src/main.c:192-226 | The dispatcher, the offices, the drivers and then the passengers are searched; the first place that has the pid forgets its first occurrence, and all other places stay as they are |
| `PidTable.Tracker.ClearFirst` | src/main.c:200-216 | The first matching slot of a fixed table is cleared, and only that one |
| `PidTable.TableMatchesPresent` | src/main.c:33-56 | After any history in which no living pid is spawned again, the table function holds each passenger spawned and not reaped exactly once, and nobody else |
| `PidTable.Tracker.Replay` | src/main.c:1176-1182 | The calls of main for any history of spawned and reaped passengers leave in the array exactly what that function says, so exactly the passengers present, through every growth and swap-remove |
| `LockOrder.HeldIs` | src/driver.c:131-163 | What is held at each point of each function is what its takes and gives so far amount to |
| `LockOrder.MutexGivenNext` | src/passenger.c:235-251 | In every function SEM_SHM_MUTEX is innermost: its holder gives it back next |
| `LockOrder.OnlyMutexNested` | src/ticket_office.c:273-277 | Only SEM_SHM_MUTEX is ever taken with another lock in hand, and nothing is taken with SEM_SHM_MUTEX in hand |
| `LockOrder.NothingHeldWaiting` | src/passenger.c:167-189 | Nobody waits for a slot or a message (src/driver.c:429, src/ticket_office.c:239) with a lock in hand |
| `LockOrder.RunHolds` | src/ipc.c:330-396 | In every state of every run each semaphore's value and its holders add up to one, but for the entrance after the closing's reset |
| `LockOrder.MutexExclusive` | src/ipc.c:330-396 | At most one process holds SEM_SHM_MUTEX; it is alive, and its next step gives it back |
| `LockOrder.WaitChainsAreShort` | src/driver.c:131-163 | A chain of waits has at most two links, the second for SEM_SHM_MUTEX |
| `LockOrder.NoWaitCycle` | src/passenger.c:235-251 | Following the functions' own operations no circle of processes ever waits each for a lock that the next one holds |
| `LockOrder.SomebodyMoves` | src/ticket_office.c:273-277 | Whenever a live process is stopped at a lock, somebody can go on without a message or a slot, unless that lock is held by a process that crashed |
| `LockPlaces.DriverFollows` | src/driver.c:137-187 | From the door to the answer the driver's steps of Protocol are, piece by piece, the operations of process_boarding_request |
| `LockPlaces.PartyFollows` | src/passenger.c:235-265 | The party's steps likewise are those of enter_station, up to giving the entrance back, and of waiting, sending and waiting for an answer (src/passenger.c:167-189, 298-312) |
| `LockPlaces.DoorsHeldAlike` | src/driver.c:137-163 | A door is held in Protocol exactly when the operations executed so far say so |
| `LockPlaces.EntryHeldAlike` | src/passenger.c:235-251 | And so is the station entrance |

## Left out

- Real time: sleeps, departure clocks and the random journey time are a nondeterministic answer to "is the departure time reached"; nothing is said about how long anything takes.
- `SharedMemory.Shm.ShouldDepart`: takes the departure time and the clock as arguments; the resets of the departure time on activation, return and reassignment are not part of the model, because time is not.
- Queue capacity: the four queues are unbounded and a send never blocks. In the source a response is sent with a blocking call, the office's under its own office semaphore (src/ticket_office.c:131, 273-277).
- Signals to passengers and drivers that end their loops (SIGTERM, SIGINT), removed IPC objects and failed sends or receives: those exits are cut short in the source and its counters are not meant to balance there. The interrupted-call retries of src/ipc.c therefore do not appear.
- The order of the calls inside the dispatcher's loop: the model lets them happen in any order and number, which covers the source's order.
- Driver crashes inside a critical section: a crash happens between steps.
- Watchdog: the process probe may report any crashed driver late; it never reports a live one dead.
- `Fleet.NeverStranded`: starts from a state with all drivers registered, because before that the watchdog can meet drivers that have no pid yet.
- `SharedRecord.ApprovedFits`: composes the two regions with nothing done to the record between them; with everything in between it is `Transport.CapacityHolds` and `Capacity.PeopleFitBefore`.
- `Transport.LoadFrozen`: is about journeys before the shutdown, because the shutdown itself clears the loads; so is `Transport.ClearedIsCredited`.
- `Progress.EntranceFreed`: up to a thousand parties, because that is what the closing sets the semaphore to.
- `Tickets.TicketsBounded`: holds until the closing sets the semaphore to 1000; after that the source bounds nothing.
- `SharedMemory.TicketDesk.DrainQueueOnClose`: is about the loop alone, with no request arriving meanwhile; in `Protocol` the drain is interleaved with everything else.
- `PidTable.Tracker.Replay`: is about histories in which each tracking succeeds, as is `PidTable.TableMatchesPresent`; a failed one leaves the table as it was, and no passenger has the pid of an office, a driver or the dispatcher.
- `PidTable.Tracker.TrackPassengerPid`: capacity is unbounded, the overflow of a doubled int is not modelled.
- `LockOrder`: what the processes do inside their critical sections is left to `Protocol`, and any process may take up any function at any time, which covers the source. Giving a queue slot back never blocks and is left out; the office semaphore has a single user and appears only here. Crashes happen outside the critical sections.
- The passenger's and driver's main loops as methods: they are program counters in `Protocol`, because each iteration spans critical sections that interleave with other processes; their critical sections are the methods of `Shm`. The locals `was_active` and the driver's early-departure flag are fields of the model's drivers.
- The two results -1 and 0 of `attempt_boarding` are treated alike by its caller and are one outcome here; the reason text is the `Verdict`.
- The counters are unbounded integers; 32-bit overflow of counters is not modelled.
- No answer is claimed for a ticket request sent after the offices have drained their queue: the source gives none.
- Logging, statistics output, command line, test modes, fork and exec, and creation and removal of IPC objects.
- Unused fields and messages: `early_departure_flag`, SEM_BUS_READY, SEM_BOARDING_MUTEX, the dispatch queue, and the `id` and `return_time` of a bus.
