/** Every step of a driver keeps the global invariant. */
module DriverSteps {
  import opened Sequences
  import opened Channels
  import opened Domain
  import opened SharedRecord
  import opened Protocol
  import opened Invariants
  import opened Parts

  /** Doors and boarding queue lengths follow the driver. */
  predicate DoorsFollow(s: State, t: State, d: Driver, d': Driver) {
    && t.passengerDoor == s.passengerDoor + InPassengerDoor(d) - InPassengerDoor(d') && t.passengerDoor >= 0
    && t.bikeDoor == s.bikeDoor + InBikeDoor(d) - InBikeDoor(d') && t.bikeDoor >= 0
    && |t.boardQ| + |t.boardR| == |s.boardQ| + |s.boardR| + InService(d) - InService(d')
  }

  /** Bus g's row of the record follows its driver; nothing else in the record changes but the active bus
      and the people transported. */
  predicate RowFollows(cfg: Config, m: Shared, m': Shared, g: nat, d': Driver)
    requires Shape(m) && Shape(m') && g < |m.buses| == |m'.buses|
  {
    && m' == m.(buses := m.buses[g := m'.buses[g]], driverPids := m.driverPids[g := m'.driverPids[g]],
                active := m'.active, transported := m'.transported)
    && BusOk(cfg, m'.buses[g], m'.driverPids[g], d')
    && m'.transported == m.transported + LoadAtStation(m.buses[g]) - LoadAtStation(m'.buses[g])
  }

  /** The load of bus g stays what it was, or the bus leaves on its current trip. */
  predicate TripFollows(b: Bus, b': Bus, d: Driver, d': Driver) {
    if d'.trip == d.trip then
      d'.journey == d.journey && LoadAtStation(b') == LoadAtStation(b) && BikesAtStation(b') == BikesAtStation(b)
    else
      d'.trip == d.trip + 1 && d'.journey == d.journey + 1 && !b'.atStation
  }

  /** Driver g moves to d', and its bus, the doors and the queue lengths follow. */
  predicate Move(cfg: Config, s: State, t: State, g: nat, d': Driver)
    requires Dimensions(s) && g < |s.ds|
  {
    && t == s.(ds := s.ds[g := d'], shm := t.shm, passengerDoor := t.passengerDoor, bikeDoor := t.bikeDoor,
               boardQ := t.boardQ, boardR := t.boardR)
    && Dimensions(t)
    && RowFollows(cfg, s.shm, t.shm, g, d')
    && TripFollows(s.shm.buses[g], t.shm.buses[g], s.ds[g], d')
    && DoorsFollow(s, t, s.ds[g], d')
  }

  /** A move within one request, or between requests: the driver keeps what it holds and touches no queue. */
  predicate Work(cfg: Config, s: State, t: State, g: nat, d': Driver)
    requires Dimensions(s) && g < |s.ds|
  {
    && Move(cfg, s, t, g, d')
    && t.boardQ == s.boardQ && t.boardR == s.boardR
    && Serving(d') == Serving(s.ds[g]) && HeldOk(s.ps, d', g)
  }

  lemma FlowsFollow(cfg: Config, s: State, t: State, g: nat, d': Driver)
    requires g < |s.ds| && t.ds == s.ds[g := d'] && t.ps == s.ps && t.boardSlots == s.boardSlots
    requires DoorsFollow(s, t, s.ds[g], d')
    requires BoardingFlow(cfg, s.boardSlots, s.ps, s.ds, s.boardQ, s.boardR)
    requires DoorFlow(s.passengerDoor, s.bikeDoor, s.ds)
    ensures BoardingFlow(cfg, t.boardSlots, t.ps, t.ds, t.boardQ, t.boardR)
    ensures DoorFlow(t.passengerDoor, t.bikeDoor, t.ds)
  {
    SumUpdate(InPassengerDoor, s.ds, g, d');
    SumUpdate(InBikeDoor, s.ds, g, d');
    SumUpdate(InService, s.ds, g, d');
  }

  lemma ManifestFollows(ps: seq<Party>, buses: seq<Bus>, ds: seq<Driver>, g: nat, b': Bus, d': Driver)
    requires g < |ds| == |buses| && RidesPast(ps, ds) && TripFollows(buses[g], b', ds[g], d')
    ensures Manifest(ps, buses, ds) ==> Manifest(ps, buses[g := b'], ds[g := d'])
    ensures BikeManifest(ps, buses, ds) ==> BikeManifest(ps, buses[g := b'], ds[g := d'])
    ensures RidesPast(ps, ds[g := d'])
  {
    FutureTripEmpty(ps, ds, g);
    forall i | 0 <= i < |ps| && Rode(ps[i]) ensures RideOk(ps[i].rides[0], ds[g := d']) {
      assert RideOk(ps[i].rides[0], ds);
    }
  }

  lemma MoveKeeps(cfg: Config, s: State, t: State, g: nat, d': Driver)
    requires Inv(cfg, s) && g < |s.ds| && Move(cfg, s, t, g, d')
    requires BoardingChannel(t.ps, t.ds, t.boardQ, t.boardR)
    ensures Inv(cfg, t)
  {
    FlowsFollow(cfg, s, t, g, d');
    ManifestFollows(s.ps, s.shm.buses, s.ds, g, t.shm.buses[g], d');
    SumUpdate(LoadAtStation, s.shm.buses, g, t.shm.buses[g]);
  }

  lemma DriverWorks(ps: seq<Party>, ds: seq<Driver>, q: seq<BoardingRequest>, r: seq<BoardingResponse>,
                    g: nat, d': Driver)
    requires g < |ds| && BoardingChannel(ps, ds, q, r) && Serving(d') == Serving(ds[g]) && HeldOk(ps, d', g)
    ensures BoardingChannel(ps, ds[g := d'], q, r)
  {
    ServerWorks(WaitsToBoard, ps, BoardingRequestPid, q, Serving, ds, BoardingResponseKey, r, g, d');
  }

  lemma DriverTakes(ps: seq<Party>, ds: seq<Driver>, q: seq<BoardingRequest>, r: seq<BoardingResponse>,
                    k: nat, g: nat, d': Driver)
    requires g < |ds| && k < |q| && BoardingChannel(ps, ds, q, r)
    requires Serving(ds[g]) == 0 && d'.pc == Process(q[k])
    ensures BoardingChannel(ps, ds[g := d'], RemoveAt(q, k), r)
  {
    assert RequestOk(ps, q[k]);
    ServerTakes(WaitsToBoard, ps, BoardingRequestPid, q, Serving, ds, BoardingResponseKey, r, k, g, d');
  }

  lemma DriverAnswers(ps: seq<Party>, ds: seq<Driver>, q: seq<BoardingRequest>, r: seq<BoardingResponse>,
                      g: nat, d': Driver, m: BoardingResponse)
    requires g < |ds| && BoardingChannel(ps, ds, q, r) && ds[g].pc.Answer? && Serving(d') == 0 && HeldOk(ps, d', g)
    requires var req := ds[g].pc.req; var verdict := ds[g].pc.verdict;
             m == BoardingResponse(req.passenger.pid, req.passenger, g, verdict == Admitted, verdict)
    ensures BoardingChannel(ps, ds[g := d'], q, r + [m])
  {
    assert HeldOk(ps, ds[g], g);
    ServerAnswers(WaitsToBoard, ps, BoardingRequestPid, q, Serving, ds, BoardingResponseKey, r, g, d', m);
  }

  /** What a step of driver g may use about the rest of the system. */
  predicate Ready(cfg: Config, s: State, g: nat) {
    && Dimensions(s) && g < |s.ds| && DriverEnabled(s, g)
    && BusOk(cfg, s.shm.buses[g], s.shm.driverPids[g], s.ds[g])
    && HeldOk(s.ps, s.ds[g], g)
    && s.passengerDoor >= 0 && s.bikeDoor >= 0
  }

  lemma SameRow(m: Shared, g: nat)
    requires g < |m.buses| == |m.driverPids|
    ensures m.buses[g := m.buses[g]] == m.buses && m.driverPids[g := m.driverPids[g]] == m.driverPids
  {
  }

  // --- one control state each ---

  lemma RegisterFirstMoves(cfg: Config, s: State, g: nat, due: bool)
    requires Ready(cfg, s, g) && s.ds[g].pc.Unregistered? && g == 0
    ensures var t := DriverStep(cfg, s, g, due); Work(cfg, s, t, g, t.ds[g])
  {
  }

  lemma RegisterMoves(cfg: Config, s: State, g: nat, due: bool)
    requires Ready(cfg, s, g) && s.ds[g].pc.Unregistered? && g > 0
    ensures var t := DriverStep(cfg, s, g, due); Work(cfg, s, t, g, t.ds[g])
  {
    var t := DriverStep(cfg, s, g, due);
    assert t.shm.buses[g] == Bus(true, true, 0, 0, 0) && t.shm.driverPids[g] == g + 1;
    assert t.shm == s.shm.(buses := s.shm.buses[g := t.shm.buses[g]], driverPids := s.shm.driverPids[g := g + 1]);
  }

  lemma CheckMoves(cfg: Config, s: State, g: nat, due: bool)
    requires Ready(cfg, s, g) && s.ds[g].pc.Check?
    ensures var t := DriverStep(cfg, s, g, due); Work(cfg, s, t, g, t.ds[g])
  {
    SameRow(s.shm, g);
  }

  lemma FinalCheckMoves(cfg: Config, s: State, g: nat, due: bool)
    requires Ready(cfg, s, g) && s.ds[g].pc.FinalCheck?
    ensures var t := DriverStep(cfg, s, g, due); Work(cfg, s, t, g, t.ds[g])
  {
    SameRow(s.shm, g);
  }

  lemma ReadStateMoves(cfg: Config, s: State, g: nat, due: bool)
    requires Ready(cfg, s, g) && s.ds[g].pc.ReadState?
    ensures var t := DriverStep(cfg, s, g, due); Work(cfg, s, t, g, t.ds[g])
  {
    SameRow(s.shm, g);
  }

  lemma DepartCheckMoves(cfg: Config, s: State, g: nat, due: bool)
    requires Ready(cfg, s, g) && s.ds[g].pc.DepartCheck?
    ensures var t := DriverStep(cfg, s, g, due); Work(cfg, s, t, g, t.ds[g])
  {
    SameRow(s.shm, g);
  }

  lemma ApproveMoves(cfg: Config, s: State, g: nat, due: bool)
    requires Ready(cfg, s, g) && s.ds[g].pc.Process? && CanBoard(cfg, s.shm, g, s.ds[g].pc.req.passenger) == Admitted
    ensures var t := DriverStep(cfg, s, g, due); Work(cfg, s, t, g, t.ds[g])
  {
    SameRow(s.shm, g);
    CanBoardMeaning(cfg, s.shm, g, s.ds[g].pc.req.passenger);
  }

  lemma DenyMoves(cfg: Config, s: State, g: nat, due: bool)
    requires Ready(cfg, s, g) && s.ds[g].pc.Process? && CanBoard(cfg, s.shm, g, s.ds[g].pc.req.passenger) != Admitted
    ensures var t := DriverStep(cfg, s, g, due); Work(cfg, s, t, g, t.ds[g])
  {
    SameRow(s.shm, g);
  }

  lemma BikeDoorMoves(cfg: Config, s: State, g: nat, due: bool)
    requires Ready(cfg, s, g) && s.ds[g].pc.AwaitDoor? && s.ds[g].pc.req.passenger.hasBike
    ensures var t := DriverStep(cfg, s, g, due); Work(cfg, s, t, g, t.ds[g])
  {
    SameRow(s.shm, g);
  }

  lemma PassengerDoorMoves(cfg: Config, s: State, g: nat, due: bool)
    requires Ready(cfg, s, g) && s.ds[g].pc.AwaitDoor? && !s.ds[g].pc.req.passenger.hasBike
    ensures var t := DriverStep(cfg, s, g, due); Work(cfg, s, t, g, t.ds[g])
  {
    SameRow(s.shm, g);
  }

  lemma LeaveBikeDoorMoves(cfg: Config, s: State, g: nat, due: bool)
    requires Ready(cfg, s, g) && s.ds[g].pc.LeaveDoor? && s.ds[g].pc.req.passenger.hasBike
    ensures var t := DriverStep(cfg, s, g, due); Work(cfg, s, t, g, t.ds[g])
  {
    SameRow(s.shm, g);
  }

  lemma LeavePassengerDoorMoves(cfg: Config, s: State, g: nat, due: bool)
    requires Ready(cfg, s, g) && s.ds[g].pc.LeaveDoor? && !s.ds[g].pc.req.passenger.hasBike
    ensures var t := DriverStep(cfg, s, g, due); Work(cfg, s, t, g, t.ds[g])
  {
    SameRow(s.shm, g);
  }

  lemma AnswerMoves(cfg: Config, s: State, g: nat, due: bool)
    requires Ready(cfg, s, g) && s.ds[g].pc.Answer?
    ensures var t := DriverStep(cfg, s, g, due); Move(cfg, s, t, g, t.ds[g])
  {
    SameRow(s.shm, g);
  }

  lemma SwitchMoves(cfg: Config, s: State, g: nat, due: bool)
    requires Ready(cfg, s, g) && s.ds[g].pc.Switch?
    ensures var t := DriverStep(cfg, s, g, due); Work(cfg, s, t, g, t.ds[g])
  {
    SameRow(s.shm, g);
  }

  lemma EntranceClearMoves(cfg: Config, s: State, g: nat, due: bool)
    requires Ready(cfg, s, g) && s.ds[g].pc.EntranceClear?
    ensures var t := DriverStep(cfg, s, g, due); Work(cfg, s, t, g, t.ds[g])
  {
    SameRow(s.shm, g);
  }

  lemma DepartMoves(cfg: Config, s: State, g: nat, due: bool)
    requires Ready(cfg, s, g) && s.ds[g].pc.Leave?
    ensures var t := DriverStep(cfg, s, g, due); Work(cfg, s, t, g, t.ds[g])
  {
    SameRow(s.shm, g);
  }

  lemma ReturnMoves(cfg: Config, s: State, g: nat, due: bool)
    requires Ready(cfg, s, g) && s.ds[g].pc.Travelling?
    ensures var t := DriverStep(cfg, s, g, due); Work(cfg, s, t, g, t.ds[g])
  {
    SameRow(s.shm, g);
  }

  lemma ExitMoves(cfg: Config, s: State, g: nat, due: bool)
    requires Ready(cfg, s, g) && s.ds[g].pc.Exit?
    ensures var t := DriverStep(cfg, s, g, due); Work(cfg, s, t, g, t.ds[g])
  {
    var t := DriverStep(cfg, s, g, due);
    assert t.shm.buses[g] == s.shm.buses[g].(boardingOpen := false) && t.shm.driverPids[g] == 0;
    assert t.shm == s.shm.(buses := s.shm.buses[g := t.shm.buses[g]], driverPids := s.shm.driverPids[g := 0]);
  }

  // --- taking a request ---

  /** No request is ever discarded: every queued one passes the driver's validation. */
  lemma QueuedRequestValid(s: State, k: nat)
    requires FlagsOk(s) && PartiesOk(s.ps, s.shm.stationOpen, s.shm.running)
    requires k < |s.boardQ| && BoardingMessages(s.ps, s.ds, s.boardQ, s.boardR)
    ensures ValidBoardingRequest(s.boardQ[k])
  {
    var i := s.boardQ[k].passenger.pid - 1;
    assert RequestOk(s.ps, s.boardQ[k]);
    assert PartyOk(s.ps[i], i, s.shm.stationOpen, s.shm.running);
    WellFormedInfoIsAccepted(s.ps[i].info, s.boardQ[k].busId);
  }

  lemma ReceiveMoves(cfg: Config, s: State, g: nat, due: bool)
    requires Ready(cfg, s, g) && s.ds[g].pc.Receive?
    requires var k := NextRequest(s.boardQ, MSG_BOARD_REQUEST); k < |s.boardQ| && ValidBoardingRequest(s.boardQ[k])
    ensures var k := NextRequest(s.boardQ, MSG_BOARD_REQUEST); var t := DriverStep(cfg, s, g, due);
            t.ds[g].pc == Process(s.boardQ[k]) && Move(cfg, s, t, g, t.ds[g])
  {
  }

  lemma ReceiveKeeps(cfg: Config, s: State, g: nat, due: bool)
    requires Inv(cfg, s) && Ready(cfg, s, g) && s.ds[g].pc.Receive?
    ensures Inv(cfg, DriverStep(cfg, s, g, due))
  {
    var t := DriverStep(cfg, s, g, due);
    QueuedRequestValid(s, NextRequest(s.boardQ, MSG_BOARD_REQUEST));
    ReceiveMoves(cfg, s, g, due);
    DriverTakes(s.ps, s.ds, s.boardQ, s.boardR, NextRequest(s.boardQ, MSG_BOARD_REQUEST), g, t.ds[g]);
    MoveKeeps(cfg, s, t, g, t.ds[g]);
  }

  lemma AnswerKeeps(cfg: Config, s: State, g: nat, due: bool)
    requires Inv(cfg, s) && Ready(cfg, s, g) && s.ds[g].pc.Answer?
    ensures Inv(cfg, DriverStep(cfg, s, g, due))
  {
    var t := DriverStep(cfg, s, g, due);
    var m := t.boardR[|s.boardR|];
    AnswerMoves(cfg, s, g, due);
    DriverAnswers(s.ps, s.ds, s.boardQ, s.boardR, g, t.ds[g], m);
    MoveKeeps(cfg, s, t, g, t.ds[g]);
  }

  // --- seating a party ---

  /** The party that driver g is letting in, and that party once it rides. */
  function Guest(s: State, g: nat): int
    requires g < |s.ds|
  {
    Serving(s.ds[g]) - 1
  }

  function Seated(p: Party, ride: Ride): Party {
    p.(rides := p.rides + [ride])
  }

  lemma SeatShape(cfg: Config, s: State, g: nat, due: bool)
    requires Ready(cfg, s, g) && s.ds[g].pc.AtDoor?
    ensures var i := Guest(s, g); var t := DriverStep(cfg, s, g, due);
            && 0 <= i < |s.ps| && s.ps[i].pc.AwaitBoard? && s.ps[i].rides == []
            && s.ps[i].info == s.ds[g].pc.req.passenger
            && t == s.(ds := s.ds[g := s.ds[g].(pc := LeaveDoor(s.ds[g].pc.req))],
                       shm := SeatPassenger(s.shm, g, s.ps[i].info),
                       ps := s.ps[i := Seated(s.ps[i], RideOn(g, s.ds[g]))])
  {
  }

  lemma SeatLedger(m: Shared, ps: seq<Party>, i: nat, g: nat, ride: Ride)
    requires i < |ps| && g < |m.buses| && Ledgers(m, ps)
    requires forall j :: 0 <= j < |ps| ==> WellFormedInfo(ps[j].info)
    requires ps[i].pc.AwaitBoard? && ps[i].rides == []
    ensures Ledgers(SeatPassenger(m, g, ps[i].info), ps[i := Seated(ps[i], ride)])
    ensures SeatPassenger(m, g, ps[i].info).waiting == m.waiting - ps[i].info.seatCount
  {
    WaitingCovers(m, ps, i);
    LedgersUpdate(m, SeatPassenger(m, g, ps[i].info), ps, i, Seated(ps[i], ride));
  }

  lemma SeatParty(m: Shared, ps: seq<Party>, i: nat, ride: Ride)
    requires i < |ps| && PartiesOk(ps, m.stationOpen, m.running) && ps[i].pc.AwaitBoard? && ps[i].rides == []
    ensures PartiesOk(ps[i := Seated(ps[i], ride)], m.stationOpen, m.running)
    ensures forall j :: 0 <= j < |ps| ==> WellFormedInfo(ps[j].info)
  {
    assert PartyOk(ps[i], i, m.stationOpen, m.running);
  }

  lemma SeatBus(cfg: Config, m: Shared, g: nat, pid: int, d: Driver)
    requires g < |m.buses| && d.pc.AtDoor? && WellFormedInfo(d.pc.req.passenger) && BusOk(cfg, m.buses[g], pid, d)
    ensures var p := d.pc.req.passenger; var b' := SeatPassenger(m, g, p).buses[g];
            && BusOk(cfg, b', pid, d.(pc := LeaveDoor(d.pc.req)))
            && LoadAtStation(b') == LoadAtStation(m.buses[g]) + p.seatCount
            && BikesAtStation(b') == BikesAtStation(m.buses[g]) + When(p.hasBike, 1)
  {
  }

  lemma SeatChannel(ps: seq<Party>, ds: seq<Driver>, q: seq<BoardingRequest>, r: seq<BoardingResponse>, g: nat, i: nat)
    requires g < |ds| && i < |ps| && ds[g].pc.AtDoor? && Serving(ds[g]) == i + 1 && BoardingChannel(ps, ds, q, r)
    ensures BoardingChannel(ps[i := Seated(ps[i], RideOn(g, ds[g]))],
                            ds[g := ds[g].(pc := LeaveDoor(ds[g].pc.req))], q, r)
  {
    var p' := Seated(ps[i], RideOn(g, ds[g]));
    var d' := ds[g].(pc := LeaveDoor(ds[g].pc.req));
    assert HeldOk(ps, ds[g], g);
    HeldAlone(WaitsToBoard, ps, BoardingRequestPid, q, Serving, ds, BoardingResponseKey, r, i, g);
    ServerWorks(WaitsToBoard, ps, BoardingRequestPid, q, Serving, ds, BoardingResponseKey, r, g, d');
    ClientMoves(WaitsToBoard, ps, BoardingRequestPid, q, Serving, ds[g := d'], BoardingResponseKey, r, i, p');
  }

  /** The seated party joins the current trip of bus g and no other trip. */
  lemma SeatManifest(ps: seq<Party>, buses: seq<Bus>, ds: seq<Driver>, i: nat, g: nat, b': Bus, d': Driver)
    requires i < |ps| && g < |ds| == |buses| && ps[i].rides == [] && RidesPast(ps, ds)
    requires d'.trip == ds[g].trip && d'.journey == ds[g].journey
    requires LoadAtStation(b') == LoadAtStation(buses[g]) + ps[i].info.seatCount
    requires BikesAtStation(b') == BikesAtStation(buses[g]) + When(ps[i].info.hasBike, 1)
    ensures var ps' := ps[i := Seated(ps[i], RideOn(g, ds[g]))];
            && (Manifest(ps, buses, ds) ==> Manifest(ps', buses[g := b'], ds[g := d']))
            && (BikeManifest(ps, buses, ds) ==> BikeManifest(ps', buses[g := b'], ds[g := d']))
            && RidesPast(ps', ds[g := d'])
  {
    var p' := Seated(ps[i], RideOn(g, ds[g]));
    forall h | 0 <= h < |ds|
      ensures Sum(OnTrip(h, ds[h].trip), ps[i := p'])
           == Sum(OnTrip(h, ds[h].trip), ps) + When(h == g, ps[i].info.seatCount)
      ensures Sum(BikeOnJourney(h, ds[h].journey), ps[i := p'])
           == Sum(BikeOnJourney(h, ds[h].journey), ps) + When(h == g && ps[i].info.hasBike, 1)
    {
      SumUpdate(OnTrip(h, ds[h].trip), ps, i, p');
      SumUpdate(BikeOnJourney(h, ds[h].journey), ps, i, p');
    }
    var ps' := ps[i := p'];
    forall j | 0 <= j < |ps'| && Rode(ps'[j]) ensures RideOk(ps'[j].rides[0], ds[g := d']) {
      assert j != i ==> RideOk(ps[j].rides[0], ds);
    }
  }

  lemma SeatFlows(cfg: Config, s: State, g: nat, i: nat, p': Party, d': Driver)
    requires g < |s.ds| && i < |s.ps| && p'.pc == s.ps[i].pc && s.ds[g].pc.AtDoor? && d'.pc == LeaveDoor(s.ds[g].pc.req)
    requires EntryFlow(s.entry, s.entryWoken, s.ps)
    requires TicketFlow(cfg, s.ticketSlots, s.ticketsWoken, s.ps, s.os, s.ticketQ)
    requires BoardingFlow(cfg, s.boardSlots, s.ps, s.ds, s.boardQ, s.boardR)
    requires DoorFlow(s.passengerDoor, s.bikeDoor, s.ds)
    ensures EntryFlow(s.entry, s.entryWoken, s.ps[i := p'])
    ensures TicketFlow(cfg, s.ticketSlots, s.ticketsWoken, s.ps[i := p'], s.os, s.ticketQ)
    ensures BoardingFlow(cfg, s.boardSlots, s.ps[i := p'], s.ds[g := d'], s.boardQ, s.boardR)
    ensures DoorFlow(s.passengerDoor, s.bikeDoor, s.ds[g := d'])
  {
    SamePlaceSameSlots(s.ps, i, p');
    SumUpdate(InPassengerDoor, s.ds, g, d');
    SumUpdate(InBikeDoor, s.ds, g, d');
    SumUpdate(InService, s.ds, g, d');
  }

  lemma SeatParties(cfg: Config, s: State, g: nat, due: bool)
    requires Inv(cfg, s) && Ready(cfg, s, g) && s.ds[g].pc.AtDoor?
    ensures var t := DriverStep(cfg, s, g, due);
            PartiesOk(t.ps, t.shm.stationOpen, t.shm.running) && Ledgers(t.shm, t.ps)
  {
    var i := Guest(s, g);
    SeatShape(cfg, s, g, due);
    SeatParty(s.shm, s.ps, i, RideOn(g, s.ds[g]));
    SeatLedger(s.shm, s.ps, i, g, RideOn(g, s.ds[g]));
  }

  lemma SeatBuses(cfg: Config, s: State, g: nat, due: bool)
    requires Inv(cfg, s) && Ready(cfg, s, g) && s.ds[g].pc.AtDoor?
    ensures var t := DriverStep(cfg, s, g, due);
            && TransportLedger(t.shm, t.overcount)
            && BusesOk(cfg, t.shm.buses, t.shm.driverPids, t.ds)
  {
    var i := Guest(s, g);
    SeatShape(cfg, s, g, due);
    assert WellFormedInfo(s.ps[i].info) by { assert PartyOk(s.ps[i], i, s.shm.stationOpen, s.shm.running); }
    SeatBus(cfg, s.shm, g, s.shm.driverPids[g], s.ds[g]);
    SumUpdate(LoadAtStation, s.shm.buses, g, SeatPassenger(s.shm, g, s.ps[i].info).buses[g]);
  }

  lemma SeatPlaces(cfg: Config, s: State, g: nat, due: bool)
    requires Inv(cfg, s) && Ready(cfg, s, g) && s.ds[g].pc.AtDoor?
    ensures var t := DriverStep(cfg, s, g, due);
            && BoardingChannel(t.ps, t.ds, t.boardQ, t.boardR) && TicketChannel(t.ps, t.os, t.ticketQ, t.ticketR)
            && Manifest(t.ps, t.shm.buses, t.ds) && BikeManifest(t.ps, t.shm.buses, t.ds) && RidesPast(t.ps, t.ds)
  {
    var i := Guest(s, g);
    SeatShape(cfg, s, g, due);
    var t := DriverStep(cfg, s, g, due);
    assert WellFormedInfo(s.ps[i].info) by { assert PartyOk(s.ps[i], i, s.shm.stationOpen, s.shm.running); }
    SeatBus(cfg, s.shm, g, s.shm.driverPids[g], s.ds[g]);
    SeatChannel(s.ps, s.ds, s.boardQ, s.boardR, g, i);
    TicketQuiet(s.ps, s.os, s.ticketQ, s.ticketR, i, t.ps[i]);
    SeatManifest(s.ps, s.shm.buses, s.ds, i, g, t.shm.buses[g], t.ds[g]);
  }

  lemma SeatKeeps(cfg: Config, s: State, g: nat, due: bool)
    requires Inv(cfg, s) && Ready(cfg, s, g) && s.ds[g].pc.AtDoor?
    ensures Inv(cfg, DriverStep(cfg, s, g, due))
  {
    var i := Guest(s, g);
    var t := DriverStep(cfg, s, g, due);
    SeatShape(cfg, s, g, due);
    SeatParties(cfg, s, g, due);
    SeatBuses(cfg, s, g, due);
    SeatPlaces(cfg, s, g, due);
    SeatFlows(cfg, s, g, i, t.ps[i], t.ds[g]);
  }

  // --- all steps of a driver ---

  lemma ReadyDriver(cfg: Config, s: State, g: nat)
    requires Inv(cfg, s) && g < |s.ds| && DriverEnabled(s, g)
    ensures Ready(cfg, s, g)
  {
  }

  predicate MovesMessage(pc: DriverPc) { pc.Receive? || pc.AtDoor? || pc.Answer? }

  lemma WorkStep(cfg: Config, s: State, g: nat, due: bool)
    requires Ready(cfg, s, g) && !MovesMessage(s.ds[g].pc)
    ensures var t := DriverStep(cfg, s, g, due); Work(cfg, s, t, g, t.ds[g])
  {
    match s.ds[g].pc
    case Unregistered => if g == 0 { RegisterFirstMoves(cfg, s, g, due); } else { RegisterMoves(cfg, s, g, due); }
    case Check => CheckMoves(cfg, s, g, due);
    case FinalCheck => FinalCheckMoves(cfg, s, g, due);
    case ReadState => ReadStateMoves(cfg, s, g, due);
    case DepartCheck(_) => DepartCheckMoves(cfg, s, g, due);
    case Process(req) =>
      if CanBoard(cfg, s.shm, g, req.passenger) == Admitted {
        ApproveMoves(cfg, s, g, due);
      } else {
        DenyMoves(cfg, s, g, due);
      }
    case AwaitDoor(req) =>
      if req.passenger.hasBike { BikeDoorMoves(cfg, s, g, due); } else { PassengerDoorMoves(cfg, s, g, due); }
    case LeaveDoor(req) =>
      if req.passenger.hasBike { LeaveBikeDoorMoves(cfg, s, g, due); } else { LeavePassengerDoorMoves(cfg, s, g, due); }
    case Switch => SwitchMoves(cfg, s, g, due);
    case EntranceClear(_) => EntranceClearMoves(cfg, s, g, due);
    case Leave(_) => DepartMoves(cfg, s, g, due);
    case Travelling(_) => ReturnMoves(cfg, s, g, due);
    case Exit => ExitMoves(cfg, s, g, due);
    case _ =>
  }

  /** Every step of a driver that seats nobody is a Move. */
  lemma DriverMoves(cfg: Config, s: State, g: nat, due: bool)
    requires Inv(cfg, s) && g < |s.ds| && DriverEnabled(s, g) && !s.ds[g].pc.AtDoor?
    ensures Move(cfg, s, DriverStep(cfg, s, g, due), g, DriverStep(cfg, s, g, due).ds[g])
  {
    ReadyDriver(cfg, s, g);
    match s.ds[g].pc
    case Receive =>
      QueuedRequestValid(s, NextRequest(s.boardQ, MSG_BOARD_REQUEST));
      ReceiveMoves(cfg, s, g, due);
    case Answer(_, _) => AnswerMoves(cfg, s, g, due);
    case _ => WorkStep(cfg, s, g, due);
  }

  lemma WorkKeeps(cfg: Config, s: State, g: nat, due: bool)
    requires Inv(cfg, s) && Ready(cfg, s, g) && !MovesMessage(s.ds[g].pc)
    ensures Inv(cfg, DriverStep(cfg, s, g, due))
  {
    var t := DriverStep(cfg, s, g, due);
    WorkStep(cfg, s, g, due);
    DriverWorks(s.ps, s.ds, s.boardQ, s.boardR, g, t.ds[g]);
    MoveKeeps(cfg, s, t, g, t.ds[g]);
  }

  lemma DriverKeeps(cfg: Config, s: State, g: nat, due: bool)
    requires Inv(cfg, s) && g < |s.ds| && DriverEnabled(s, g)
    ensures Inv(cfg, DriverStep(cfg, s, g, due))
  {
    ReadyDriver(cfg, s, g);
    match s.ds[g].pc
    case Receive => ReceiveKeeps(cfg, s, g, due);
    case AtDoor(_) => SeatKeeps(cfg, s, g, due);
    case Answer(_, _) => AnswerKeeps(cfg, s, g, due);
    case _ => WorkKeeps(cfg, s, g, due);
  }

  lemma FlagsOnly(cfg: Config, ps: seq<Party>, b: Bus, pid: int, d: Driver, d': Driver, g: int)
    requires d'.pc == d.pc && d'.trip == d.trip && d'.journey == d.journey && (d.crashed ==> d'.crashed)
    ensures Serving(d') == Serving(d) && InService(d') == InService(d)
    ensures InPassengerDoor(d') == InPassengerDoor(d) && InBikeDoor(d') == InBikeDoor(d)
    ensures BusOk(cfg, b, pid, d) ==> BusOk(cfg, b, pid, d')
    ensures HeldOk(ps, d, g) ==> HeldOk(ps, d', g)
  {
  }

  /** A crash or an early-departure signal changes only the driver's own flags. */
  lemma FlagMoves(cfg: Config, s: State, g: nat, d': Driver)
    requires Dimensions(s) && g < |s.ds| && d'.pc == s.ds[g].pc
    requires d'.trip == s.ds[g].trip && d'.journey == s.ds[g].journey
    requires s.ds[g].crashed ==> d'.crashed
    requires BusOk(cfg, s.shm.buses[g], s.shm.driverPids[g], s.ds[g]) && HeldOk(s.ps, s.ds[g], g)
    requires s.passengerDoor >= 0 && s.bikeDoor >= 0
    ensures Work(cfg, s, SetDriver(s, g, d'), g, d')
  {
    SameRow(s.shm, g);
    FlagsOnly(cfg, s.ps, s.shm.buses[g], s.shm.driverPids[g], s.ds[g], d', g);
  }

  lemma FlagKeeps(cfg: Config, s: State, g: nat, d': Driver)
    requires Inv(cfg, s) && g < |s.ds|
    requires d'.pc == s.ds[g].pc && d'.trip == s.ds[g].trip && d'.journey == s.ds[g].journey
    requires s.ds[g].crashed ==> d'.crashed
    ensures Inv(cfg, SetDriver(s, g, d'))
  {
    FlagMoves(cfg, s, g, d');
    DriverWorks(s.ps, s.ds, s.boardQ, s.boardR, g, d');
    MoveKeeps(cfg, s, SetDriver(s, g, d'), g, d');
  }
}
