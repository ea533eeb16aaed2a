/** The global invariant of the protocol, in independent parts: what each process knows, what each counter
    counts, where each message is, what each bus carries, and who holds which semaphore. */
module Invariants {
  import opened Sequences
  import opened Channels
  import opened Domain
  import opened SharedRecord
  import opened Protocol

  // --- where a party stands in its life ---

  datatype Stage = Outside | Before | Inside | Out

  /** Outside: not counted as created. Before: counted, but in no station counter. Inside: entered the station.
      Out: charged to left_early. */
  function StageOf(pc: PartyPc): Stage {
    match pc
    case Spawned => Outside
    case Arrived => Outside
    case Refused => Outside
    case BoardCheck => Inside
    case FindBus => Inside
    case AwaitBoardSlot(_) => Inside
    case SendBoard(_) => Inside
    case AwaitBoard => Inside
    case BoardAnswered(_, _) => Inside
    case LeaveStation => Inside
    case Boarded => Inside
    case LeaveEntry(_, entered) => if entered then Inside else Before
    case Gone => Out
    case _ => Before
  }

  function When(b: bool, n: int): int { if b then n else 0 }

  predicate Counted(p: Party) { !StageOf(p.pc).Outside? }
  predicate Rode(p: Party) { p.rides != [] }
  predicate Undecided(p: Party) { p.issued == 0 && p.denied == 0 }

  // Seats (or, where named so, parties) that each counter is meant to count.
  function CreatedSeats(p: Party): int { When(Counted(p), p.info.seatCount) }
  function CreatedAdults(p: Party): int { When(Counted(p), 1) }
  function CreatedChildren(p: Party): int { When(Counted(p) && p.info.hasChildWith, 1) }
  function CreatedVip(p: Party): int { When(Counted(p) && p.info.isVip, p.info.seatCount) }
  function WaitingSeats(p: Party): int { When(StageOf(p.pc).Inside? && !Rode(p), p.info.seatCount) }
  function LeftSeats(p: Party): int { When(StageOf(p.pc).Out?, p.info.seatCount) }
  function BetweenSeats(p: Party): int { When(StageOf(p.pc).Before?, p.info.seatCount) }
  function RodeSeats(p: Party): int { When(Rode(p), p.info.seatCount) }
  function RodeVipSeats(p: Party): int { When(Rode(p) && p.info.isVip, p.info.seatCount) }
  function IssuedTickets(p: Party): int { p.issued }
  function SoldSeats(p: Party): int { p.sold }
  function DeniedTickets(p: Party): int { p.denied }

  /** Parties whose ticket request is unsent, queued or in service. */
  function InOffice(p: Party): int {
    When(p.pc.AwaitTicketSlot? || p.pc.SendTicket? || (p.pc.AwaitTicket? && Undecided(p)), 1)
  }

  /** The seats of a party that rides bus b on trip t. */
  function OnTrip(b: nat, t: nat): Party -> int {
    (p: Party) => When(Rode(p) && p.rides[0].bus == b && p.rides[0].trip == t, p.info.seatCount)
  }

  /** The seats of a party that rides bus b on journey j; and whether it takes a bike there. */
  function OnJourney(b: nat, j: nat): Party -> int {
    (p: Party) => When(Rode(p) && p.rides[0].bus == b && p.rides[0].journey == j, p.info.seatCount)
  }

  function BikeOnJourney(b: nat, j: nat): Party -> int {
    (p: Party) => When(Rode(p) && p.rides[0].bus == b && p.rides[0].journey == j && p.info.hasBike, 1)
  }

  // --- each party ---

  /** It holds the ticket it needs, and holds it because it was issued or because it is a VIP. */
  predicate Ticketed(p: Party) {
    p.info.hasTicket && p.denied == 0 && p.issued == (if p.info.isVip then 0 else 1)
  }

  predicate Untouched(p: Party) {
    Undecided(p) && p.info.hasTicket == p.info.isVip
  }

  predicate TurnedDown(p: Party) {
    !p.info.isVip && !p.info.hasTicket && p.issued == 0 && p.denied == 1
  }

  /** Entry attempts fail only because the station has closed for good. */
  predicate TriesOk(tries: nat, open: bool) {
    tries <= MAX_ENTER_ATTEMPTS && (tries > 0 ==> !open)
  }

  predicate PcOk(p: Party, open: bool, running: bool) {
    match p.pc
    case Spawned => Untouched(p)
    case Arrived => Untouched(p)
    case Refused => Untouched(p)
    case WantsTicket => Untouched(p) && !p.info.isVip
    case AwaitTicketSlot => Untouched(p) && !p.info.isVip
    case SendTicket => Untouched(p) && !p.info.isVip
    case AwaitTicket => !p.info.isVip && !p.info.hasTicket && p.issued + p.denied <= 1
    case NoTicket => TurnedDown(p)
    case Gone => Ticketed(p) || TurnedDown(p)
    case EnterCheck(tries) => Ticketed(p) && TriesOk(tries, open)
    case AwaitEntry(tries) => Ticketed(p) && TriesOk(tries, open)
    case AtEntry(tries) => Ticketed(p) && TriesOk(tries, open)
    case LeaveEntry(tries, entered) => Ticketed(p) && TriesOk(tries, open) && (if entered then tries == 0 else !open)
    case GivenUp => Ticketed(p) && !open
    case LeaveStation => Ticketed(p) && !running
    case _ => Ticketed(p)
  }

  predicate RidesOk(p: Party) {
    match p.pc
    case AwaitBoard => |p.rides| <= 1
    case BoardAnswered(approved, bus) => if approved then |p.rides| == 1 && p.rides[0].bus == bus else p.rides == []
    case Boarded => |p.rides| == 1 && p.rides[0].bus == p.info.assignedBus
    case _ => p.rides == []
  }

  predicate PartyOk(p: Party, i: int, open: bool, running: bool) {
    && WellFormedInfo(p.info) && p.info.pid == i + 1
    && p.sold == When(p.issued == 1, p.info.seatCount)
    && PcOk(p, open, running)
    && RidesOk(p)
  }

  predicate PartiesOk(ps: seq<Party>, open: bool, running: bool) {
    forall i :: 0 <= i < |ps| ==> PartyOk(ps[i], i, open, running)
  }

  predicate FlagsOk(s: State) {
    && s.shm.stationOpen == !s.shm.stationClosed
    && s.shm.boardingAllowed && !s.shm.testFillQueue
    && (s.shm.running <==> s.dispatcher != Ended)
    && (s.entryWoken || s.ticketsWoken || s.dispatcher == WakeEntry || s.dispatcher == WakeTickets ==>
          s.shm.stationClosed)
    && (s.shm.running ==> s.overcount == 0)
  }

  // --- each counter ---

  predicate CreationLedger(m: Shared, ps: seq<Party>) {
    && m.created == Sum(CreatedSeats, ps)
    && m.adults == Sum(CreatedAdults, ps)
    && m.children == Sum(CreatedChildren, ps)
    && m.vipCreated == Sum(CreatedVip, ps)
  }

  predicate TicketLedger(m: Shared, ps: seq<Party>) {
    && m.inOffice == Sum(InOffice, ps)
    && m.issued == Sum(IssuedTickets, ps)
    && m.soldPeople == Sum(SoldSeats, ps)
    && m.denied == Sum(DeniedTickets, ps)
  }

  predicate StationLedger(m: Shared, ps: seq<Party>) {
    && m.waiting == Sum(WaitingSeats, ps)
    && m.leftEarly == Sum(LeftSeats, ps)
    && m.boarded == Sum(RodeSeats, ps)
    && m.boardedVip == Sum(RodeVipSeats, ps)
  }

  predicate Ledgers(m: Shared, ps: seq<Party>) {
    CreationLedger(m, ps) && TicketLedger(m, ps) && StationLedger(m, ps)
  }

  /** Everyone who boarded has been credited as transported or sits on a bus at the station. */
  predicate TransportLedger(m: Shared, overcount: int) {
    m.transported + Sum(LoadAtStation, m.buses) == m.boarded + overcount
  }

  // --- the boarding channel ---

  predicate WaitsToBoard(p: Party) { p.pc.AwaitBoard? }
  predicate WaitsForTicket(p: Party) { p.pc.AwaitTicket? }

  predicate PidOk(ps: seq<Party>, pid: int) { 1 <= pid <= |ps| }

  /** An unanswered request describes its sender truthfully, and the sender waits unseated. */
  predicate RequestOk(ps: seq<Party>, m: BoardingRequest) {
    && PidOk(ps, m.passenger.pid)
    && var p := ps[m.passenger.pid - 1];
    p.pc.AwaitBoard? && p.rides == [] && p.info == m.passenger && m.mtype == RequestType(p.info)
  }

  /** A decided request: the sender still waits, and is seated on bus g exactly if it was approved. */
  predicate DecisionOk(ps: seq<Party>, who: PassengerInfo, g: int, approved: bool) {
    && PidOk(ps, who.pid)
    && var p := ps[who.pid - 1];
    && p.pc.AwaitBoard? && p.info == who
    && (if approved then |p.rides| == 1 && p.rides[0].bus == g else p.rides == [])
  }

  predicate HeldOk(ps: seq<Party>, d: Driver, g: int) {
    match d.pc
    case Process(req) => RequestOk(ps, req)
    case AwaitDoor(req) => RequestOk(ps, req)
    case AtDoor(req) => RequestOk(ps, req)
    case LeaveDoor(req) => DecisionOk(ps, req.passenger, g, true)
    case Answer(req, verdict) => DecisionOk(ps, req.passenger, g, verdict == Admitted)
    case _ => true
  }

  predicate ResponseOk(ps: seq<Party>, r: BoardingResponse) {
    r.mtype == r.passenger.pid && DecisionOk(ps, r.passenger, r.busId, r.approved)
  }

  /** The party a driver is serving; 0 if none. */
  function Serving(d: Driver): int {
    match d.pc
    case Process(req) => req.passenger.pid
    case AwaitDoor(req) => req.passenger.pid
    case AtDoor(req) => req.passenger.pid
    case LeaveDoor(req) => req.passenger.pid
    case Answer(req, _) => req.passenger.pid
    case _ => 0
  }

  predicate BoardingMessages(ps: seq<Party>, ds: seq<Driver>, q: seq<BoardingRequest>, r: seq<BoardingResponse>) {
    && (forall k :: 0 <= k < |q| ==> RequestOk(ps, q[k]))
    && (forall g :: 0 <= g < |ds| ==> HeldOk(ps, ds[g], g))
    && (forall k :: 0 <= k < |r| ==> ResponseOk(ps, r[k]))
  }

  /** Each party that waits has exactly one message: queued, at a driver, or answered; no other party has any. */
  predicate BoardingMatched(ps: seq<Party>, ds: seq<Driver>, q: seq<BoardingRequest>, r: seq<BoardingResponse>) {
    Matched(WaitsToBoard, ps, BoardingRequestPid, q, Serving, ds, BoardingResponseKey, r)
  }

  predicate BoardingChannel(ps: seq<Party>, ds: seq<Driver>, q: seq<BoardingRequest>, r: seq<BoardingResponse>) {
    BoardingMessages(ps, ds, q, r) && BoardingMatched(ps, ds, q, r)
  }

  // --- the ticket channel ---

  predicate TicketRequestOk(ps: seq<Party>, m: TicketRequest) {
    && PidOk(ps, m.passenger.pid)
    && var p := ps[m.passenger.pid - 1];
    p.pc.AwaitTicket? && Undecided(p) && p.info == m.passenger && m.mtype == MSG_TICKET_REQUEST
  }

  predicate SaleOk(ps: seq<Party>, who: PassengerInfo, approved: bool) {
    && PidOk(ps, who.pid)
    && var p := ps[who.pid - 1];
    && p.pc.AwaitTicket? && p.info == who
    && p.issued == (if approved then 1 else 0) && p.denied == (if approved then 0 else 1)
  }

  predicate OfficeOk(ps: seq<Party>, o: OfficePc) {
    match o
    case ReleaseSlot(req) => TicketRequestOk(ps, req)
    case MarkBusy(req) => TicketRequestOk(ps, req)
    case Serve(req) => TicketRequestOk(ps, req)
    case DrainRelease(req) => TicketRequestOk(ps, req)
    case DrainDeny(req) => TicketRequestOk(ps, req)
    case AnswerTicket(req, approved) => SaleOk(ps, req.passenger, approved)
    case DrainAnswer(req) => SaleOk(ps, req.passenger, false)
    case _ => true
  }

  predicate SaleResponseOk(ps: seq<Party>, r: TicketResponse) {
    && PidOk(ps, r.passenger.pid)
    && var who := ps[r.passenger.pid - 1].info;
    r == TicketAnswer(who, r.office, r.approved) && SaleOk(ps, who, r.approved)
  }

  function Selling(o: OfficePc): int {
    match o
    case ReleaseSlot(req) => req.passenger.pid
    case MarkBusy(req) => req.passenger.pid
    case Serve(req) => req.passenger.pid
    case DrainRelease(req) => req.passenger.pid
    case DrainDeny(req) => req.passenger.pid
    case AnswerTicket(req, _) => req.passenger.pid
    case DrainAnswer(req) => req.passenger.pid
    case _ => 0
  }

  predicate TicketMessages(ps: seq<Party>, os: seq<OfficePc>, q: seq<TicketRequest>, r: seq<TicketResponse>) {
    && (forall k :: 0 <= k < |q| ==> TicketRequestOk(ps, q[k]))
    && (forall k :: 0 <= k < |os| ==> OfficeOk(ps, os[k]))
    && (forall k :: 0 <= k < |r| ==> SaleResponseOk(ps, r[k]))
  }

  /** As BoardingMatched, for the ticket queues and the offices. */
  predicate TicketMatched(ps: seq<Party>, os: seq<OfficePc>, q: seq<TicketRequest>, r: seq<TicketResponse>) {
    Matched(WaitsForTicket, ps, TicketRequestPid, q, Selling, os, TicketResponseKey, r)
  }

  predicate TicketChannel(ps: seq<Party>, os: seq<OfficePc>, q: seq<TicketRequest>, r: seq<TicketResponse>) {
    TicketMessages(ps, os, q, r) && TicketMatched(ps, os, q, r)
  }

  // --- semaphores ---

  function AtEntryLock(p: Party): int { When(p.pc.AtEntry? || p.pc.LeaveEntry?, 1) }
  function ReservedTicketSlot(p: Party): int { When(p.pc.SendTicket?, 1) }
  function HoldsBoardSlot(p: Party): int { When(p.pc.SendBoard? || p.pc.AwaitBoard? || p.pc.BoardAnswered?, 1) }
  function AwaitsBoarding(p: Party): int { When(p.pc.AwaitBoard?, 1) }

  function InService(d: Driver): int {
    When(d.pc.Process? || d.pc.AwaitDoor? || d.pc.AtDoor? || d.pc.LeaveDoor? || d.pc.Answer?, 1)
  }

  /** The request whose party stands in a bus door. */
  predicate InDoor(d: Driver, bike: bool) {
    match d.pc
    case AtDoor(req) => req.passenger.hasBike == bike
    case LeaveDoor(req) => req.passenger.hasBike == bike
    case _ => false
  }

  function InPassengerDoor(d: Driver): int { When(InDoor(d, false), 1) }
  function InBikeDoor(d: Driver): int { When(InDoor(d, true), 1) }

  function SlotOwed(o: OfficePc): int { When(o.ReleaseSlot? || o.DrainRelease?, 1) }

  predicate EntryFlow(entry: int, woken: bool, ps: seq<Party>) {
    entry >= 0 && (!woken ==> entry + Sum(AtEntryLock, ps) == 1)
  }

  predicate TicketFlow(cfg: Config, slots: int, woken: bool, ps: seq<Party>, os: seq<OfficePc>, q: seq<TicketRequest>) {
    && slots >= 0
    && (!woken ==> slots + Sum(ReservedTicketSlot, ps) + |q| + Sum(SlotOwed, os) == cfg.ticketLimit)
  }

  predicate BoardingFlow(cfg: Config, slots: int, ps: seq<Party>, ds: seq<Driver>,
                         q: seq<BoardingRequest>, r: seq<BoardingResponse>) {
    && slots >= 0
    && slots + Sum(HoldsBoardSlot, ps) == cfg.boardingLimit
    && |q| + Sum(InService, ds) + |r| == Sum(AwaitsBoarding, ps)
  }

  predicate DoorFlow(passengerDoor: int, bikeDoor: int, ds: seq<Driver>) {
    && passengerDoor >= 0 && bikeDoor >= 0
    && passengerDoor + Sum(InPassengerDoor, ds) == 1
    && bikeDoor + Sum(InBikeDoor, ds) == 1
  }

  // --- each bus ---

  /** Seats and bikes of the party that a driver has approved and not yet seated. */
  function PendingSeats(d: Driver): int {
    match d.pc
    case AwaitDoor(req) => SeatsNeeded(req.passenger)
    case AtDoor(req) => SeatsNeeded(req.passenger)
    case _ => 0
  }

  function PendingBikes(d: Driver): int {
    match d.pc
    case AwaitDoor(req) => When(req.passenger.hasBike, 1)
    case AtDoor(req) => When(req.passenger.hasBike, 1)
    case _ => 0
  }

  predicate BusOk(cfg: Config, b: Bus, pid: int, d: Driver) {
    && 0 <= b.passengerCount && b.passengerCount + PendingSeats(d) <= cfg.seats
    && 0 <= b.bikeCount && b.bikeCount + PendingBikes(d) <= cfg.bikes
    && b.enteringCount == When(d.pc.AwaitDoor? || d.pc.AtDoor?, 1)
    && b.atStation == !d.pc.Travelling?
    && b.boardingOpen == (pid > 0 && b.atStation)
    && pid >= 0
    && (d.pc.Unregistered? || d.pc.Done? ==> pid == 0)
    && (pid == 0 ==> d.pc.Unregistered? || d.pc.Done? || d.crashed)
    && (d.pc.Unregistered? ==> b.passengerCount == 0 && b.bikeCount == 0)
  }

  predicate BusesOk(cfg: Config, buses: seq<Bus>, pids: seq<int>, ds: seq<Driver>) {
    && |buses| == |pids| == |ds|
    && forall g :: 0 <= g < |ds| ==> BusOk(cfg, buses[g], pids[g], ds[g])
  }

  /** Whom the count of a bus at the station counts: the parties that boarded it since its load was last credited. */
  predicate Manifest(ps: seq<Party>, buses: seq<Bus>, ds: seq<Driver>) {
    && |buses| == |ds|
    && (forall g :: 0 <= g < |ds| ==> LoadAtStation(buses[g]) == Sum(OnTrip(g, ds[g].trip), ps))
  }

  function BikesAtStation(b: Bus): int { if b.atStation then b.bikeCount else 0 }

  predicate BikeManifest(ps: seq<Party>, buses: seq<Bus>, ds: seq<Driver>) {
    && |buses| == |ds|
    && (forall g :: 0 <= g < |ds| ==> BikesAtStation(buses[g]) == Sum(BikeOnJourney(g, ds[g].journey), ps))
  }

  predicate RideOk(r: Ride, ds: seq<Driver>) {
    r.bus < |ds| && r.trip <= ds[r.bus].trip && r.journey <= ds[r.bus].journey
  }

  predicate RidesPast(ps: seq<Party>, ds: seq<Driver>) {
    forall i :: 0 <= i < |ps| && Rode(ps[i]) ==> RideOk(ps[i].rides[0], ds)
  }

  // --- each office's row of the shared record ---

  predicate OfficeRowOk(o: OfficePc, k: int, pid: int, busy: int) {
    && pid == (if o.Start? || o.OfficeDone? then 0 else k + 1)
    && busy == (match o
                case Serve(req) => req.passenger.pid
                case AnswerTicket(req, _) => req.passenger.pid
                case MarkFree(req) => req.passenger.pid
                case _ => 0)
  }

  predicate OfficeRows(os: seq<OfficePc>, pids: seq<int>, busy: seq<int>) {
    && |os| == |pids| == |busy|
    && forall k :: 0 <= k < |os| ==> OfficeRowOk(os[k], k, pids[k], busy[k])
  }

  // --- the whole ---

  predicate Inv(cfg: Config, s: State) {
    && Dimensions(s)
    && FlagsOk(s)
    && PartiesOk(s.ps, s.shm.stationOpen, s.shm.running)
    && Ledgers(s.shm, s.ps)
    && TransportLedger(s.shm, s.overcount)
    && BoardingChannel(s.ps, s.ds, s.boardQ, s.boardR)
    && TicketChannel(s.ps, s.os, s.ticketQ, s.ticketR)
    && EntryFlow(s.entry, s.entryWoken, s.ps)
    && TicketFlow(cfg, s.ticketSlots, s.ticketsWoken, s.ps, s.os, s.ticketQ)
    && BoardingFlow(cfg, s.boardSlots, s.ps, s.ds, s.boardQ, s.boardR)
    && DoorFlow(s.passengerDoor, s.bikeDoor, s.ds)
    && BusesOk(cfg, s.shm.buses, s.shm.driverPids, s.ds)
    && Manifest(s.ps, s.shm.buses, s.ds)
    && BikeManifest(s.ps, s.shm.buses, s.ds)
    && RidesPast(s.ps, s.ds)
    && OfficeRows(s.os, s.shm.officePids, s.shm.officeBusy)
  }
}
