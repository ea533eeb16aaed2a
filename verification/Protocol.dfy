/** The whole system as a step system: parties, drivers, ticket offices, dispatcher and main over one shared record.
    One step is one region under SEM_SHM_MUTEX, one semaphore operation or one queue operation. */
module Protocol {
  import opened Sequences
  import opened Domain
  import opened SharedRecord

  // --- control states ---

  datatype PartyPc =
    | Spawned                                    // process exists, nothing counted yet
    | Arrived                                    // simulation running and station open when checked
    | WantsTicket                                // counted as created
    | AwaitTicketSlot | SendTicket | AwaitTicket // inside purchase_ticket
    | NoTicket                                   // purchase_ticket failed
    | CheckClosed | FoundClosed
    | EnterCheck(tries: nat) | AwaitEntry(tries: nat) | AtEntry(tries: nat)
    | LeaveEntry(tries: nat, entered: bool)      // inside enter_station
    | GivenUp                                    // entry attempts exhausted
    | BoardCheck | FindBus
    | AwaitBoardSlot(bus: int) | SendBoard(bus: int) | AwaitBoard
    | BoardAnswered(approved: bool, bus: int)    // inside attempt_boarding
    | LeaveStation
    | Boarded | Gone | Refused                   // final

  /** One boarding: which bus, since which crediting of its load, and on which of its journeys. */
  datatype Ride = Ride(bus: nat, trip: nat, journey: nat)

  /** A passenger process. The last four fields are history: tickets issued to it and the seats they
      were for, tickets denied to it, and its boardings. */
  datatype Party = Party(info: PassengerInfo, pc: PartyPc, issued: nat, sold: int, denied: nat, rides: seq<Ride>)

  datatype Site = BeforeReceive | AfterBoarding | LoopEnd

  datatype DriverPc =
    | Unregistered
    | Check | FinalCheck | ReadState
    | DepartCheck(site: Site)
    | Receive
    | Process(req: BoardingRequest)
    | AwaitDoor(req: BoardingRequest) | AtDoor(req: BoardingRequest) | LeaveDoor(req: BoardingRequest)
    | Answer(req: BoardingRequest, verdict: Verdict)
    | Switch
    | EntranceClear(last: bool) | Leave(last: bool) | Travelling(last: bool)
    | Exit | Done

  /** A driver process. A crash freezes its pc. The last two fields are history: how often the bus's load was
      credited, by a departure or by the shutdown, and how often the bus has departed. */
  datatype Driver = Driver(pc: DriverPc, wasActive: bool, early: bool, crashed: bool, trip: nat, journey: nat)

  datatype OfficePc =
    | Start | OfficeCheck | OfficeReceive
    | ReleaseSlot(req: TicketRequest)
    | MarkBusy(req: TicketRequest) | Serve(req: TicketRequest)
    | AnswerTicket(req: TicketRequest, approved: bool) | MarkFree(req: TicketRequest)
    | Drain | DrainRelease(req: TicketRequest) | DrainDeny(req: TicketRequest) | DrainAnswer(req: TicketRequest)
    | OfficeExit | OfficeDone

  datatype DispatcherPc = Loop | WakeEntry | WakeTickets | Ending | Ended

  datatype State = State(
    shm: Shared,
    ps: seq<Party>,
    ds: seq<Driver>,
    os: seq<OfficePc>,
    dispatcher: DispatcherPc,
    entry: int,                       // SEM_STATION_ENTRY
    passengerDoor: int,               // SEM_ENTRANCE_PASSENGER
    bikeDoor: int,                    // SEM_ENTRANCE_BIKE
    ticketSlots: int,                 // SEM_TICKET_QUEUE_SLOTS
    boardSlots: int,                  // SEM_BOARDING_QUEUE_SLOTS
    ticketQ: seq<TicketRequest>,
    ticketR: seq<TicketResponse>,
    boardQ: seq<BoardingRequest>,
    boardR: seq<BoardingResponse>,
    entryWoken: bool,                 // history: the closing has reset SEM_STATION_ENTRY
    ticketsWoken: bool,               // history: the closing has reset SEM_TICKET_QUEUE_SLOTS
    overcount: int)                   // history: off-station people the shutdown credited a second time

  predicate Dimensions(s: State) {
    && Shape(s.shm)
    && |s.ds| == |s.shm.buses|
    && |s.os| == |s.shm.officePids|
  }

  // --- initial states ---

  function Newcomer(info: PassengerInfo): Party {
    Party(info, Spawned, 0, 0, 0, [])
  }

  predicate FreshParty(p: Party, i: int) {
    && p == Newcomer(p.info)
    && WellFormedInfo(p.info)
    && p.info.pid == i + 1
    && p.info.hasTicket == p.info.isVip
  }

  predicate Init(cfg: Config, s: State) {
    && |s.ds| > 0
    && s.shm == InitialShared(|s.ds|, |s.os|)
    && (forall i :: 0 <= i < |s.ps| ==> FreshParty(s.ps[i], i))
    && (forall g :: 0 <= g < |s.ds| ==> s.ds[g] == Driver(Unregistered, g == 0, false, false, 0, 0))
    && (forall k :: 0 <= k < |s.os| ==> s.os[k] == Start)
    && s.dispatcher == Loop
    && s.entry == s.passengerDoor == s.bikeDoor == 1
    && s.ticketSlots == cfg.ticketLimit && s.boardSlots == cfg.boardingLimit
    && s.ticketQ == [] && s.ticketR == [] && s.boardQ == [] && s.boardR == []
    && !s.entryWoken && !s.ticketsWoken && s.overcount == 0
  }

  // --- passenger steps ---

  function SetParty(s: State, i: nat, p: Party): State
    requires i < |s.ps|
  {
    s.(ps := s.ps[i := p])
  }

  /** What the entry loop does after a failed and after a successful enter_station. */
  function AfterFailedEntry(tries: nat): PartyPc {
    if tries < MAX_ENTER_ATTEMPTS then EnterCheck(tries + 1) else GivenUp
  }

  function AfterEntry(tries: nat): PartyPc {
    if tries >= MAX_ENTER_ATTEMPTS then GivenUp else BoardCheck
  }

  predicate PartyEnabled(s: State, i: nat)
    requires i < |s.ps|
  {
    var p := s.ps[i];
    match p.pc
    case AwaitTicketSlot => s.ticketSlots > 0
    case AwaitTicket => FirstWith(TicketResponseKey, s.ticketR, p.info.pid) < |s.ticketR|
    case AwaitEntry(_) => s.entry > 0
    case AwaitBoardSlot(_) => s.boardSlots > 0
    case AwaitBoard => FirstWith(BoardingResponseKey, s.boardR, p.info.pid) < |s.boardR|
    case Boarded => false
    case Gone => false
    case Refused => false
    case _ => true
  }

  /** The info of an arriving party: its child stays behind if the child thread cannot be started. */
  function ArrivalInfo(p: PassengerInfo, childFails: bool): PassengerInfo {
    if p.hasChildWith && childFails then p.(hasChildWith := false, seatCount := 1) else p
  }

  function PartyStep(s: State, i: nat, childFails: bool): State
    requires i < |s.ps| && PartyEnabled(s, i)
  {
    var p := s.ps[i];
    var seats := p.info.seatCount;
    match p.pc
    case Spawned =>
      SetParty(s, i, p.(pc := if s.shm.running && s.shm.stationOpen then Arrived else Refused))
    case Arrived =>
      var info := ArrivalInfo(p.info, childFails);
      SetParty(s, i, p.(info := info, pc := if info.isVip then CheckClosed else WantsTicket)).(
        shm := RecordArrival(s.shm, info))
    case WantsTicket =>
      SetParty(s, i, p.(pc := AwaitTicketSlot)).(shm := JoinOffice(s.shm))
    case AwaitTicketSlot =>
      SetParty(s, i, p.(pc := SendTicket)).(ticketSlots := s.ticketSlots - 1)
    case SendTicket =>
      SetParty(s, i, p.(pc := AwaitTicket)).(ticketQ := s.ticketQ + [TicketRequest(MSG_TICKET_REQUEST, p.info)])
    case AwaitTicket =>
      var k := FirstWith(TicketResponseKey, s.ticketR, p.info.pid);
      var p' := if s.ticketR[k].approved then p.(info := p.info.(hasTicket := true), pc := CheckClosed)
                else p.(pc := NoTicket);
      SetParty(s, i, p').(ticketR := RemoveAt(s.ticketR, k))
    case NoTicket =>
      SetParty(s, i, p.(pc := Gone)).(shm := LeaveEarly(s.shm, seats))
    case CheckClosed =>
      SetParty(s, i, p.(pc := if s.shm.stationClosed then FoundClosed else EnterCheck(0)))
    case FoundClosed =>
      SetParty(s, i, p.(pc := Gone)).(shm := LeaveEarly(s.shm, seats))
    case EnterCheck(tries) =>
      SetParty(s, i, p.(pc := if s.shm.stationOpen then AwaitEntry(tries) else AfterFailedEntry(tries)))
    case AwaitEntry(tries) =>
      SetParty(s, i, p.(pc := AtEntry(tries))).(entry := s.entry - 1)
    case AtEntry(tries) =>
      SetParty(s, i, p.(pc := LeaveEntry(tries, s.shm.stationOpen))).(shm := EnterStation(s.shm, seats))
    case LeaveEntry(tries, entered) =>
      SetParty(s, i, p.(pc := if entered then AfterEntry(tries) else AfterFailedEntry(tries))).(entry := s.entry + 1)
    case GivenUp =>
      SetParty(s, i, p.(pc := Gone)).(shm := LeaveEarly(s.shm, seats))
    case BoardCheck =>
      SetParty(s, i, p.(pc := if !s.shm.running || !s.shm.boardingAllowed then LeaveStation else FindBus))
    case FindBus =>
      SetParty(s, i, p.(pc := if s.shm.active < 0 || !s.shm.boardingAllowed then BoardCheck
                              else AwaitBoardSlot(s.shm.active)))
    case AwaitBoardSlot(bus) =>
      SetParty(s, i, p.(pc := SendBoard(bus))).(boardSlots := s.boardSlots - 1)
    case SendBoard(bus) =>
      SetParty(s, i, p.(pc := AwaitBoard)).(boardQ := s.boardQ + [BoardingRequest(RequestType(p.info), p.info, bus)])
    case AwaitBoard =>
      var k := FirstWith(BoardingResponseKey, s.boardR, p.info.pid);
      SetParty(s, i, p.(pc := BoardAnswered(s.boardR[k].approved, s.boardR[k].busId))).(
        boardR := RemoveAt(s.boardR, k))
    case BoardAnswered(approved, bus) =>
      var p' := if approved then p.(info := p.info.(assignedBus := bus), pc := Boarded) else p.(pc := BoardCheck);
      SetParty(s, i, p').(boardSlots := s.boardSlots + 1)
    case LeaveStation =>
      SetParty(s, i, p.(pc := Gone)).(shm := AbandonStation(s.shm, seats))
    case _ => s
  }

  // --- driver steps ---

  function SetDriver(s: State, g: nat, d: Driver): State
    requires g < |s.ds|
  {
    s.(ds := s.ds[g := d])
  }

  predicate DriverEnabled(s: State, g: nat)
    requires g < |s.ds|
  {
    && !s.ds[g].crashed
    && match s.ds[g].pc
       case Receive => NextRequest(s.boardQ, MSG_BOARD_REQUEST) < |s.boardQ|
       case AwaitDoor(req) => if req.passenger.hasBike then s.bikeDoor > 0 else s.passengerDoor > 0
       case Done => false
       case _ => true
  }

  function AfterDepartCheck(site: Site): DriverPc {
    match site
    case BeforeReceive => Receive
    case AfterBoarding => DepartCheck(LoopEnd)
    case LoopEnd => Check
  }

  /** A door semaphore is taken (delta = -1) or given back (delta = 1). */
  function MoveDoor(s: State, bike: bool, delta: int): State {
    if bike then s.(bikeDoor := s.bikeDoor + delta) else s.(passengerDoor := s.passengerDoor + delta)
  }

  /** The party a request comes from, if there is one. */
  predicate Addressed(s: State, req: BoardingRequest) {
    1 <= req.passenger.pid <= |s.ps|
  }

  function RideOn(g: nat, d: Driver): Ride { Ride(g, d.trip, d.journey) }

  /** History: the party behind the request rides bus g on its current trip. */
  function RecordRide(s: State, g: nat, req: BoardingRequest): seq<Party>
    requires g < |s.ds|
  {
    if Addressed(s, req) then
      var i := req.passenger.pid - 1;
      s.ps[i := s.ps[i].(rides := s.ps[i].rides + [RideOn(g, s.ds[g])])]
    else s.ps
  }

  function DriverStep(cfg: Config, s: State, g: nat, due: bool): State
    requires Dimensions(s) && g < |s.ds| && DriverEnabled(s, g)
  {
    var d := s.ds[g];
    var bus := s.shm.buses[g];
    match d.pc
    case Unregistered =>
      SetDriver(s, g, d.(pc := Check)).(shm := RegisterDriver(s.shm, g, g + 1))
    case Check =>
      SetDriver(s, g, d.(pc := if DriverMayStop(s.shm) then FinalCheck else ReadState))
    case FinalCheck =>
      SetDriver(s, g, d.(pc := if bus.atStation && (bus.passengerCount > 0 || bus.enteringCount > 0)
                               then EntranceClear(true) else Exit))
    case ReadState =>
      var amActive := s.shm.active == g;
      var next := if !bus.atStation || !bus.boardingOpen || !amActive then Check
                  else if cfg.perf then DepartCheck(BeforeReceive) else Receive;
      SetDriver(s, g, d.(pc := next, wasActive := amActive))
    case DepartCheck(site) =>
      var (go, early) := ShouldDepart(cfg, bus, due, d.early);
      SetDriver(s, g, d.(pc := if go then Switch else AfterDepartCheck(site), early := early))
    case Receive =>
      var k := NextRequest(s.boardQ, MSG_BOARD_REQUEST);
      var req := s.boardQ[k];
      SetDriver(s, g, d.(pc := if ValidBoardingRequest(req) then Process(req) else Check)).(
        boardQ := RemoveAt(s.boardQ, k))
    case Process(req) =>
      var verdict := CanBoard(cfg, s.shm, g, req.passenger);
      if verdict == Admitted then
        SetDriver(s, g, d.(pc := AwaitDoor(req))).(shm := Approve(s.shm, g))
      else
        SetDriver(s, g, d.(pc := Answer(req, verdict)))
    case AwaitDoor(req) =>
      MoveDoor(SetDriver(s, g, d.(pc := AtDoor(req))), req.passenger.hasBike, -1)
    case AtDoor(req) =>
      SetDriver(s, g, d.(pc := LeaveDoor(req))).(
        shm := SeatPassenger(s.shm, g, req.passenger),
        ps := RecordRide(s, g, req))
    case LeaveDoor(req) =>
      MoveDoor(SetDriver(s, g, d.(pc := Answer(req, Admitted))), req.passenger.hasBike, 1)
    case Answer(req, verdict) =>
      SetDriver(s, g, d.(pc := DepartCheck(if cfg.perf then AfterBoarding else LoopEnd))).(
        boardR := s.boardR + [BoardingResponse(req.passenger.pid, req.passenger, g, verdict == Admitted, verdict)])
    case Switch =>
      SetDriver(s, g, d.(pc := EntranceClear(false))).(shm := SwitchActive(s.shm, g))
    case EntranceClear(last) =>
      SetDriver(s, g, d.(pc := if bus.enteringCount > 0 then EntranceClear(last) else Leave(last)))
    case Leave(last) =>
      SetDriver(s, g, d.(pc := Travelling(last), trip := d.trip + 1, journey := d.journey + 1)).(
        shm := Depart(s.shm, g))
    case Travelling(last) =>
      SetDriver(s, g, d.(pc := if last then Exit else Check)).(shm := Return(s.shm, g))
    case Exit =>
      SetDriver(s, g, d.(pc := Done)).(shm := Unregister(s.shm, g))
    case Done => s
  }

  // --- ticket office steps ---

  function SetOffice(s: State, k: nat, pc: OfficePc): State
    requires k < |s.os|
  {
    s.(os := s.os[k := pc])
  }

  predicate OfficeEnabled(s: State, k: nat)
    requires k < |s.os|
  {
    match s.os[k]
    case OfficeReceive => |s.ticketQ| > 0
    case OfficeDone => false
    case _ => true
  }

  /** History: the party behind a ticket request, after `change`. */
  function UpdateBuyer(s: State, req: TicketRequest, change: Party -> Party): seq<Party> {
    if 1 <= req.passenger.pid <= |s.ps| then
      var i := req.passenger.pid - 1;
      s.ps[i := change(s.ps[i])]
    else s.ps
  }

  function Issued(req: TicketRequest): Party -> Party {
    (p: Party) => p.(issued := p.issued + 1, sold := p.sold + SeatsNeeded(req.passenger))
  }

  function Denied(): Party -> Party {
    (p: Party) => p.(denied := p.denied + 1)
  }

  function OfficeStep(s: State, k: nat): State
    requires Dimensions(s) && k < |s.os| && OfficeEnabled(s, k)
  {
    match s.os[k]
    case Start =>
      SetOffice(s, k, OfficeCheck).(shm := SetOfficePid(s.shm, k, k + 1))
    case OfficeCheck =>
      SetOffice(s, k, if OfficeMustStop(s.shm) then Drain else OfficeReceive)
    case OfficeReceive =>
      SetOffice(s, k, ReleaseSlot(s.ticketQ[0])).(ticketQ := RemoveAt(s.ticketQ, 0))
    case ReleaseSlot(req) =>
      SetOffice(s, k, if ValidTicketRequest(req) then MarkBusy(req) else OfficeCheck).(ticketSlots := s.ticketSlots + 1)
    case MarkBusy(req) =>
      SetOffice(s, k, Serve(req)).(shm := SetOfficeBusy(s.shm, k, req.passenger.pid))
    case Serve(req) =>
      if ValidPassenger(req.passenger) then
        SetOffice(s, k, AnswerTicket(req, true)).(
          shm := IssueTicket(s.shm, req.passenger), ps := UpdateBuyer(s, req, Issued(req)))
      else
        SetOffice(s, k, AnswerTicket(req, false)).(
          shm := DenyTicket(s.shm), ps := UpdateBuyer(s, req, Denied()))
    case AnswerTicket(req, approved) =>
      SetOffice(s, k, MarkFree(req)).(
        ticketR := s.ticketR + [TicketAnswer(req.passenger, k, approved)])
    case MarkFree(req) =>
      SetOffice(s, k, OfficeCheck).(shm := SetOfficeBusy(s.shm, k, 0))
    case Drain =>
      if s.ticketQ == [] then SetOffice(s, k, OfficeExit)
      else SetOffice(s, k, DrainRelease(s.ticketQ[0])).(ticketQ := RemoveAt(s.ticketQ, 0))
    case DrainRelease(req) =>
      SetOffice(s, k, DrainDeny(req)).(ticketSlots := s.ticketSlots + 1)
    case DrainDeny(req) =>
      SetOffice(s, k, DrainAnswer(req)).(
        shm := DenyTicket(s.shm), ps := UpdateBuyer(s, req, Denied()))
    case DrainAnswer(req) =>
      SetOffice(s, k, Drain).(ticketR := s.ticketR + [TicketAnswer(req.passenger, k, false)])
    case OfficeExit =>
      SetOffice(s, k, OfficeDone).(shm := SetOfficePid(s.shm, k, 0))
    case OfficeDone => s
  }

  // --- dispatcher, main and environment steps ---

  /** History at the shutdown: the load of a bus at the station is credited, as by a departure. */
  function FoldTrips(s: State): seq<Driver>
    requires Dimensions(s)
  {
    seq(|s.ds|, g requires 0 <= g < |s.ds| =>
          if s.shm.buses[g].atStation then s.ds[g].(trip := s.ds[g].trip + 1) else s.ds[g])
  }

  datatype Step =
    | PartyMove(i: nat, childFails: bool)
    | DriverMove(g: nat, due: bool)
    | DriverCrash(g: nat)
    | EarlySignal(g: nat)                  // SIGUSR1 forwarded by the dispatcher
    | OfficeMove(k: nat)
    | ClosingSignal                        // SIGUSR2: process_signals closes the station
    | WakeEntryQueue | WakeTicketQueue     // the two sem_setval calls after it
    | WatchdogRound(dead: seq<bool>)
    | EndTest                              // check_simulation_end
    | TerminateSignal                      // SIGTERM to the dispatcher
    | ShutDown
    | SpawningStops

  predicate Enabled(s: State, step: Step)
    requires Dimensions(s)
  {
    match step
    case PartyMove(i, _) => i < |s.ps| && PartyEnabled(s, i)
    case DriverMove(g, _) => g < |s.ds| && DriverEnabled(s, g)
    case DriverCrash(g) => g < |s.ds| && !s.ds[g].crashed && s.ds[g].pc != Done
    case EarlySignal(g) => g < |s.ds| && s.dispatcher == Loop && s.shm.driverPids[g] > 0
    case OfficeMove(k) => k < |s.os| && OfficeEnabled(s, k)
    case ClosingSignal => s.dispatcher == Loop
    case WakeEntryQueue => s.dispatcher == WakeEntry
    case WakeTicketQueue => s.dispatcher == WakeTickets
    case WatchdogRound(dead) =>
      && s.dispatcher == Loop && |dead| == |s.ds|
      && forall g :: 0 <= g < |dead| && dead[g] ==> s.ds[g].crashed
    case EndTest => s.dispatcher == Loop
    case TerminateSignal => s.dispatcher == Loop
    case ShutDown => s.dispatcher == Ending
    case SpawningStops => true
  }

  function Apply(cfg: Config, s: State, step: Step): State
    requires Dimensions(s) && Enabled(s, step)
  {
    match step
    case PartyMove(i, childFails) => PartyStep(s, i, childFails)
    case DriverMove(g, due) => DriverStep(cfg, s, g, due)
    case DriverCrash(g) => SetDriver(s, g, s.ds[g].(crashed := true))
    case EarlySignal(g) => SetDriver(s, g, s.ds[g].(early := true))
    case OfficeMove(k) => OfficeStep(s, k)
    case ClosingSignal =>
      s.(shm := CloseStation(s.shm), dispatcher := if s.shm.stationClosed then Loop else WakeEntry)
    case WakeEntryQueue => s.(entry := WAKE_ALL, entryWoken := true, dispatcher := WakeTickets)
    case WakeTicketQueue => s.(ticketSlots := WAKE_ALL, ticketsWoken := true, dispatcher := Loop)
    case WatchdogRound(dead) => s.(shm := Watchdog(s.shm, dead))
    case EndTest => s.(dispatcher := if SimulationOver(s.shm) then Ending else Loop)
    case TerminateSignal => s.(dispatcher := Ending)
    case ShutDown =>
      s.(shm := Shutdown(s.shm), ds := FoldTrips(s), dispatcher := Ended,
         overcount := s.overcount + Sum(LoadTravelling, s.shm.buses))
    case SpawningStops => s.(shm := StopSpawning(s.shm))
  }

  ghost predicate Next(cfg: Config, s: State, t: State) {
    Dimensions(s) && exists step :: Enabled(s, step) && t == Apply(cfg, s, step)
  }

  ghost predicate StepAt(cfg: Config, run: seq<State>, k: nat)
    requires k + 1 < |run|
  {
    Next(cfg, run[k], run[k + 1])
  }

  /** A run: any interleaving of steps, from any initial state. */
  ghost predicate IsRun(cfg: Config, run: seq<State>) {
    && |run| > 0
    && Init(cfg, run[0])
    && forall k: nat :: k + 1 < |run| ==> StepAt(cfg, run, k)
  }
}
