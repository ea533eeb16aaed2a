/** The shared-memory record as a value, and what each region under SEM_SHM_MUTEX does to it. */
module SharedRecord {
  import opened Sequences
  import opened Domain

  datatype Bus = Bus(
    atStation: bool,
    boardingOpen: bool,
    passengerCount: int,
    bikeCount: int,
    enteringCount: int)

  datatype Shared = Shared(
    running: bool,
    stationOpen: bool,
    boardingAllowed: bool,
    spawningStopped: bool,
    stationClosed: bool,
    testFillQueue: bool,
    created: int,
    transported: int,
    waiting: int,
    inOffice: int,
    leftEarly: int,
    adults: int,
    children: int,
    vipCreated: int,
    soldPeople: int,
    denied: int,
    boarded: int,
    boardedVip: int,
    buses: seq<Bus>,
    active: int,
    officeBusy: seq<int>,
    issued: int,
    driverPids: seq<int>,
    officePids: seq<int>)

  /** One entry per bus and per office, and an active bus that exists or is -1. */
  predicate Shape(m: Shared) {
    && |m.buses| == |m.driverPids|
    && |m.officeBusy| == |m.officePids|
    && -1 <= m.active < |m.buses|
  }

  function IdleBus(): Bus {
    Bus(true, false, 0, 0, 0)
  }

  function InitialShared(n: nat, k: nat): Shared {
    Shared(true, true, true, false, false, false, 0, 0, 0, 0, 0, 0, 0, 0, 0, 0, 0, 0,
           seq(n, i => IdleBus()), 0, seq(k, i => 0), 0, seq(n, i => 0), seq(k, i => 0))
  }

  // --- people on buses ---

  /** passenger_count as the statistics sum it. */
  function OnBus(b: Bus): int { b.passengerCount }

  /** People on a bus that stands at the station. */
  function LoadAtStation(b: Bus): int { if b.atStation then b.passengerCount else 0 }

  /** People still recorded on a bus that has left: they are already in `transported`. */
  function LoadTravelling(b: Bus): int { if b.atStation then 0 else b.passengerCount }

  /** What the shutdown adds to `transported` for one bus. */
  function FoldedLoad(b: Bus): int { if b.passengerCount > 0 then b.passengerCount else 0 }

  function EmptiedBus(b: Bus): Bus { if b.passengerCount > 0 then b.(passengerCount := 0) else b }

  // --- passenger regions ---

  function RecordArrival(m: Shared, p: PassengerInfo): Shared {
    m.(created := m.created + p.seatCount,
       adults := m.adults + 1,
       children := m.children + (if p.hasChildWith then 1 else 0),
       vipCreated := m.vipCreated + (if p.isVip then p.seatCount else 0))
  }

  function JoinOffice(m: Shared): Shared {
    m.(inOffice := m.inOffice + 1)
  }

  function LeaveEarly(m: Shared, seats: int): Shared {
    m.(leftEarly := m.leftEarly + seats)
  }

  function EnterStation(m: Shared, seats: int): Shared {
    if m.stationOpen then m.(waiting := m.waiting + seats) else m
  }

  /** Subtraction that stops at zero. */
  function ClampedMinus(a: int, b: int): (r: int)
    ensures r >= 0 && r >= a - b && (r == a - b || r == 0)
  {
    if a - b < 0 then 0 else a - b
  }

  function AbandonStation(m: Shared, seats: int): Shared {
    m.(waiting := ClampedMinus(m.waiting, seats), leftEarly := m.leftEarly + seats)
  }

  // --- ticket office regions ---

  function SetOfficePid(m: Shared, k: nat, pid: int): Shared
    requires k < |m.officePids|
  {
    m.(officePids := m.officePids[k := pid])
  }

  function SetOfficeBusy(m: Shared, k: nat, pid: int): Shared
    requires k < |m.officeBusy|
  {
    m.(officeBusy := m.officeBusy[k := pid])
  }

  function IssueTicket(m: Shared, p: PassengerInfo): Shared {
    m.(issued := m.issued + 1, soldPeople := m.soldPeople + SeatsNeeded(p), inOffice := m.inOffice - 1)
  }

  function DenyTicket(m: Shared): Shared {
    m.(denied := m.denied + 1, inOffice := m.inOffice - 1)
  }

  // --- driver regions ---

  function SetBus(m: Shared, g: nat, b: Bus): Shared
    requires g < |m.buses|
  {
    m.(buses := m.buses[g := b])
  }

  function RegisterDriver(m: Shared, g: nat, pid: int): Shared
    requires g < |m.buses| == |m.driverPids|
  {
    var m' := SetBus(m, g, Bus(true, true, 0, 0, 0)).(driverPids := m.driverPids[g := pid]);
    if g == 0 then m'.(active := 0) else m'
  }

  function CanBoard(cfg: Config, m: Shared, g: nat, p: PassengerInfo): Verdict
    requires g < |m.buses|
  {
    var bus := m.buses[g];
    if !p.hasTicket && !p.isVip then TicketMissing
    else if !m.boardingAllowed then Blocked
    else if !bus.atStation then NotAtStation
    else if !bus.boardingOpen then NotOpen
    else if bus.passengerCount + SeatsNeeded(p) > cfg.seats then NotEnoughSeats
    else if p.hasBike && bus.bikeCount >= cfg.bikes then BikesFull
    else Admitted
  }

  function Approve(m: Shared, g: nat): Shared
    requires g < |m.buses|
  {
    SetBus(m, g, m.buses[g].(enteringCount := m.buses[g].enteringCount + 1))
  }

  function SeatPassenger(m: Shared, g: nat, p: PassengerInfo): Shared
    requires g < |m.buses|
  {
    var b := m.buses[g];
    var b' := b.(passengerCount := b.passengerCount + SeatsNeeded(p),
                 bikeCount := b.bikeCount + (if p.hasBike then 1 else 0),
                 enteringCount := b.enteringCount - 1);
    SetBus(m, g, b').(
      waiting := ClampedMinus(m.waiting, SeatsNeeded(p)),
      boarded := m.boarded + SeatsNeeded(p),
      boardedVip := m.boardedVip + (if p.isVip then SeatsNeeded(p) else 0))
  }

  function Depart(m: Shared, g: nat): Shared
    requires g < |m.buses|
  {
    SetBus(m, g, m.buses[g].(boardingOpen := false, atStation := false)).(
      transported := m.transported + m.buses[g].passengerCount)
  }

  function Return(m: Shared, g: nat): Shared
    requires g < |m.buses| && -1 <= m.active < |m.buses|
  {
    var m' := SetBus(m, g, m.buses[g].(atStation := true, passengerCount := 0, bikeCount := 0, boardingOpen := true));
    if m.active < 0 || !m'.buses[m.active].atStation then m'.(active := g) else m'
  }

  /** The k-th bus after g in cyclic order. */
  function Following(n: nat, g: nat, k: nat): (c: nat)
    requires n > 0
    ensures c < n
  {
    (g + 1 + k) % n
  }

  /** The k-th bus after g could take over from it. */
  predicate Candidate(buses: seq<Bus>, g: nat, k: nat)
    requires g < |buses|
  {
    var c := Following(|buses|, g, k);
    buses[c].atStation && c != g
  }

  /** The search for the next bus from the i-th place on: it finds the nearest candidate, or -1 if there is none. */
  function NextBus(buses: seq<Bus>, g: nat, i: nat := 0): (next: int)
    requires g < |buses| && i <= |buses|
    ensures -1 <= next < |buses|
    ensures next == -1 ==> forall k: nat :: i <= k < |buses| ==> !Candidate(buses, g, k)
    ensures next >= 0 ==> exists k: nat :: && i <= k < |buses| && Candidate(buses, g, k)
                                           && next == Following(|buses|, g, k)
                                           && forall j: nat :: i <= j < k ==> !Candidate(buses, g, j)
    decreases |buses| - i
  {
    if i == |buses| then -1
    else if Candidate(buses, g, i) then Following(|buses|, g, i)
    else NextBus(buses, g, i + 1)
  }

  function SwitchActive(m: Shared, g: nat): Shared
    requires g < |m.buses|
  {
    m.(active := NextBus(m.buses, g))
  }

  function Unregister(m: Shared, g: nat): Shared
    requires g < |m.buses| == |m.driverPids|
  {
    SetBus(m, g, m.buses[g].(boardingOpen := false)).(driverPids := m.driverPids[g := 0])
  }

  /** check_shutdown of a driver. */
  predicate DriverMayStop(m: Shared) {
    if m.stationClosed && m.waiting > 0 then false else !m.running
  }

  /** check_shutdown of a ticket office. */
  predicate OfficeMustStop(m: Shared) {
    !m.running || m.stationClosed
  }

  /** should_depart: the answer, and the early-departure flag afterwards. `due` stands for the clock. */
  function ShouldDepart(cfg: Config, b: Bus, due: bool, early: bool): (bool, bool) {
    if cfg.departWhenFull && b.passengerCount >= cfg.seats then (true, early)
    else if due && b.passengerCount > 0 then (true, early)
    else if early && b.passengerCount > 0 then (true, false)
    else (false, early)
  }

  // --- dispatcher and main regions ---

  function CloseStation(m: Shared): Shared {
    if m.stationClosed then m
    else m.(stationClosed := true, stationOpen := false, spawningStopped := true)
  }

  function StopSpawning(m: Shared): Shared {
    m.(spawningStopped := true)
  }

  /** The first bus from i on that has a registered driver and stands at the station; -1 if none. */
  function FirstLive(pids: seq<int>, buses: seq<Bus>, i: nat := 0): (first: int)
    requires i <= |pids| == |buses|
    ensures -1 <= first < |buses|
    ensures first >= 0 ==> pids[first] > 0 && buses[first].atStation
    ensures first == -1 ==> forall j :: i <= j < |pids| ==> !(pids[j] > 0 && buses[j].atStation)
    ensures forall j :: i <= j < first ==> !(pids[j] > 0 && buses[j].atStation)
    decreases |pids| - i
  {
    if i == |pids| then -1
    else if pids[i] > 0 && buses[i].atStation then i
    else FirstLive(pids, buses, i + 1)
  }

  /** The watchdog's first loop: drivers reported dead lose their pid and their doors close. */
  function ClearDead(m: Shared, dead: seq<bool>): Shared
    requires |dead| == |m.buses| == |m.driverPids|
  {
    m.(driverPids := seq(|dead|, i requires 0 <= i < |dead| =>
                           if m.driverPids[i] > 0 && dead[i] then 0 else m.driverPids[i]),
       buses := seq(|dead|, i requires 0 <= i < |dead| =>
                      if m.driverPids[i] > 0 && dead[i] then m.buses[i].(boardingOpen := false) else m.buses[i]))
  }

  /** Bus i with its doors open; no change if i is -1. */
  function WithOpen(buses: seq<Bus>, i: int): seq<Bus>
    requires -1 <= i < |buses|
  {
    if i >= 0 then buses[i := buses[i].(boardingOpen := true)] else buses
  }

  /** The watchdog's second half: the first live bus takes over, or, if there is none, -1. */
  function Reassign(m: Shared): Shared
    requires Shape(m)
  {
    var next := FirstLive(m.driverPids, m.buses);
    m.(buses := WithOpen(m.buses, next), active := next)
  }

  /** check_driver_health. `dead` is what kill(pid, 0) reports about each driver process. */
  function Watchdog(m: Shared, dead: seq<bool>): Shared
    requires Shape(m) && |dead| == |m.buses|
  {
    var c := ClearDead(m, dead);
    if m.active >= 0 && c.driverPids[m.active] == 0 then Reassign(c) else c
  }

  predicate AllAtStationAndEmpty(buses: seq<Bus>) {
    forall i :: 0 <= i < |buses| ==>
      buses[i].atStation && buses[i].passengerCount == 0 && buses[i].enteringCount == 0
  }

  /** The last test of check_simulation_end. */
  predicate DrainBranch(m: Shared) {
    m.spawningStopped && m.waiting <= 0 && m.inOffice <= 0 && AllAtStationAndEmpty(m.buses)
  }

  predicate SimulationOver(m: Shared) {
    !m.testFillQueue && (!m.running || DrainBranch(m))
  }

  /** The sum that the final statistics and main's drain test compare with `created`. */
  function PrintedSum(m: Shared): int {
    m.transported + m.waiting + m.inOffice + Sum(OnBus, m.buses) + m.leftEarly
  }

  /** main's drain test. */
  predicate DrainComplete(m: Shared) {
    m.spawningStopped && m.created > 0 && m.waiting == 0 && m.inOffice == 0 && PrintedSum(m) == m.created
  }

  /** The dispatcher's shutdown region. */
  function Shutdown(m: Shared): Shared {
    m.(running := false,
       transported := m.transported + Sum(FoldedLoad, m.buses),
       buses := seq(|m.buses|, i requires 0 <= i < |m.buses| => EmptiedBus(m.buses[i])))
  }

  // --- what the regions mean ---

  /** The driver of bus g is registered and not reported dead. */
  predicate Alive(m: Shared, dead: seq<bool>, g: nat) {
    g < |m.driverPids| && g < |dead| && m.driverPids[g] > 0 && !dead[g]
  }

  predicate ReportedDead(m: Shared, dead: seq<bool>, g: nat) {
    g < |m.driverPids| && g < |dead| && m.driverPids[g] > 0 && dead[g]
  }

  /** A watchdog that does what it is for: exactly the registered drivers reported dead lose their pid and their
      doors, and nobody is moved. */
  predicate DeadCleared(m: Shared, dead: seq<bool>, m': Shared) {
    && |m'.driverPids| == |m.driverPids| && |m'.buses| == |m.buses|
    && (forall g :: 0 <= g < |m.driverPids| ==>
          m'.driverPids[g] == (if ReportedDead(m, dead, g) then 0 else m.driverPids[g]))
    && (forall g :: 0 <= g < |m.buses| ==>
          && m'.buses[g] == m.buses[g].(boardingOpen := m'.buses[g].boardingOpen)
          && (ReportedDead(m, dead, g) ==> !m'.buses[g].boardingOpen))
  }

  predicate CanTakeOver(m: Shared, dead: seq<bool>, g: nat) {
    Alive(m, dead, g) && g < |m.buses| && m.buses[g].atStation
  }

  /** If the active bus has no driver left, the lowest bus at the station with a live one becomes active and opens,
      or -1 if there is none; otherwise the active bus stays. No other living driver's doors are touched. */
  predicate Replaced(m: Shared, dead: seq<bool>, m': Shared)
    requires Shape(m) && Shape(m') && |m'.buses| == |m.buses|
  {
    && (if m.active >= 0 && (m.driverPids[m.active] == 0 || ReportedDead(m, dead, m.active)) then
          && (m'.active == -1 ==> forall g :: 0 <= g < |m.buses| ==> !CanTakeOver(m, dead, g))
          && (m'.active >= 0 ==> CanTakeOver(m, dead, m'.active) && m'.buses[m'.active].boardingOpen
                                 && forall g :: 0 <= g < m'.active ==> !CanTakeOver(m, dead, g))
        else m'.active == m.active)
    && (forall g :: 0 <= g < |m.buses| && !ReportedDead(m, dead, g) && (g != m'.active || m'.active == m.active) ==>
          m'.buses[g] == m.buses[g])
  }

  lemma ClearDeadMeaning(m: Shared, dead: seq<bool>)
    requires Shape(m) && |dead| == |m.buses|
    ensures DeadCleared(m, dead, ClearDead(m, dead)) && ClearDead(m, dead).active == m.active
    ensures forall g :: 0 <= g < |m.buses| && !ReportedDead(m, dead, g) ==> ClearDead(m, dead).buses[g] == m.buses[g]
  {
  }

  lemma ReassignMeaning(m: Shared, dead: seq<bool>, c: Shared)
    requires Shape(m) && Shape(c) && |dead| == |m.buses| && DeadCleared(m, dead, c)
    ensures DeadCleared(m, dead, Reassign(c)) && Shape(Reassign(c))
    ensures var m' := Reassign(c);
            && (m'.active == -1 ==> forall g :: 0 <= g < |m.buses| ==> !CanTakeOver(m, dead, g))
            && (m'.active >= 0 ==> CanTakeOver(m, dead, m'.active) && m'.buses[m'.active].boardingOpen
                                   && forall g :: 0 <= g < m'.active ==> !CanTakeOver(m, dead, g))
            && (forall g :: 0 <= g < |m.buses| && g != m'.active ==> m'.buses[g] == c.buses[g])
  {
    forall g | 0 <= g < |m.buses| ensures CanTakeOver(m, dead, g) <==> c.driverPids[g] > 0 && c.buses[g].atStation {
    }
  }

  /** What the watchdog does, in terms of the pids, the reports and the buses alone. */
  lemma WatchdogMeaning(m: Shared, dead: seq<bool>)
    requires Shape(m) && |dead| == |m.buses|
    ensures Shape(Watchdog(m, dead)) && DeadCleared(m, dead, Watchdog(m, dead)) && Replaced(m, dead, Watchdog(m, dead))
  {
    ClearDeadMeaning(m, dead);
    ReassignMeaning(m, dead, ClearDead(m, dead));
  }

  /** check_simulation_end: the simulation is over once it has been stopped, or once spawning has stopped, nobody
      waits, no ticket is pending and every bus is at the station with nobody on board or entering. */
  lemma SimulationOverMeaning(m: Shared)
    ensures SimulationOver(m) <==>
              && !m.testFillQueue
              && (!m.running
                  || (&& m.spawningStopped && m.waiting <= 0 && m.inOffice <= 0
                      && forall i :: 0 <= i < |m.buses| ==>
                           m.buses[i].atStation && m.buses[i].passengerCount == 0 && m.buses[i].enteringCount == 0))
  {
  }

  /** A bus goes when it is full and told to go when full, or when it has people and its time has come or an early
      departure was asked for; and that request is used up exactly when it is the only reason. */
  lemma ShouldDepartMeaning(cfg: Config, b: Bus, due: bool, early: bool)
    ensures var (go, after) := ShouldDepart(cfg, b, due, early);
            && (go <==> (cfg.departWhenFull && b.passengerCount >= cfg.seats)
                        || (b.passengerCount > 0 && (due || early)))
            && (after != early <==> early && b.passengerCount > 0 && !due
                                    && !(cfg.departWhenFull && b.passengerCount >= cfg.seats))
            && (after ==> early)
  {
  }

  /** Each reason that can_board gives is the first obstacle there is. */
  lemma FirstObstacle(cfg: Config, m: Shared, g: nat, p: PassengerInfo)
    requires g < |m.buses|
    ensures var v := CanBoard(cfg, m, g, p); var b := m.buses[g];
            var ticket := p.hasTicket || p.isVip; var allowed := m.boardingAllowed;
            var room := b.passengerCount + SeatsNeeded(p) <= cfg.seats;
            && (v == TicketMissing <==> !ticket)
            && (v == Blocked <==> ticket && !allowed)
            && (v == NotAtStation <==> ticket && allowed && !b.atStation)
            && (v == NotOpen <==> ticket && allowed && b.atStation && !b.boardingOpen)
            && (v == NotEnoughSeats <==> ticket && allowed && b.atStation && b.boardingOpen && !room)
            && (v == BikesFull <==> ticket && allowed && b.atStation && b.boardingOpen && room
                                    && p.hasBike && b.bikeCount >= cfg.bikes)
  {
  }

  /** can_board admits exactly the ticketed party that fits through an open door. */
  lemma CanBoardMeaning(cfg: Config, m: Shared, g: nat, p: PassengerInfo)
    requires g < |m.buses|
    ensures CanBoard(cfg, m, g, p) == Admitted <==>
              && (p.hasTicket || p.isVip) && m.boardingAllowed
              && m.buses[g].atStation && m.buses[g].boardingOpen
              && m.buses[g].passengerCount + SeatsNeeded(p) <= cfg.seats
              && (p.hasBike ==> m.buses[g].bikeCount + 1 <= cfg.bikes)
    ensures CanBoard(cfg, m, g, p) == BikesFull ==> p.hasBike && m.buses[g].bikeCount >= cfg.bikes
  {
  }

  /** The two regions of one boarding, with nothing else done to the bus between them: an approval is a promise of
      room that the seating keeps, and everyone who boards was waiting. */
  lemma ApprovedFits(cfg: Config, m: Shared, g: nat, p: PassengerInfo)
    requires g < |m.buses| && CanBoard(cfg, m, g, p) == Admitted && SeatsNeeded(p) <= m.waiting
    ensures var m' := SeatPassenger(Approve(m, g), g, p); var b := m'.buses[g];
            && b.passengerCount <= cfg.seats && (p.hasBike ==> b.bikeCount <= cfg.bikes)
            && b.enteringCount == m.buses[g].enteringCount
            && m'.boarded + m'.waiting == m.boarded + m.waiting
            && b.passengerCount - m.buses[g].passengerCount == m.waiting - m'.waiting
  {
  }

  /** Every other bus lies on the cyclic path that the search follows. */
  lemma CyclicOffset(n: nat, g: nat, c: nat) returns (k: nat)
    requires g < n && c < n && c != g
    ensures k < n && Following(n, g, k) == c
  {
    if c > g {
      k := c - g - 1;
    } else {
      k := c + n - g - 1;
      assert (c + n) % n == c;
    }
  }

  /** How many places bus c is ahead of bus g, going up and, past the last bus, on from bus 0. */
  function Ahead(n: nat, g: nat, c: int): int {
    if c > g then c - g else c + n - g
  }

  lemma AheadFollowing(n: nat, g: nat, k: nat)
    requires g < n && k < n && Following(n, g, k) != g
    ensures Ahead(n, g, Following(n, g, k)) == k + 1
  {
    if g + 1 + k >= n {
      assert (g + 1 + k) % n == g + 1 + k - n;
    }
  }

  lemma NextBusNearest(buses: seq<Bus>, g: nat)
    requires g < |buses| && NextBus(buses, g) >= 0
    ensures forall c :: 0 <= c < |buses| && c != g && buses[c].atStation ==>
              Ahead(|buses|, g, NextBus(buses, g)) <= Ahead(|buses|, g, c)
  {
    var n := |buses|;
    var k: nat :| && k < n && Candidate(buses, g, k) && NextBus(buses, g) == Following(n, g, k)
                  && forall j: nat :: j < k ==> !Candidate(buses, g, j);
    AheadFollowing(n, g, k);
    forall c | 0 <= c < n && c != g && buses[c].atStation ensures k + 1 <= Ahead(n, g, c) {
      var j := CyclicOffset(n, g, c);
      AheadFollowing(n, g, j);
      assert Candidate(buses, g, j);
    }
  }

  /** The cyclic search misses nothing: it fails exactly when no other bus stands at the station, and what it finds
      is the nearest one. */
  lemma SwitchMeaning(buses: seq<Bus>, g: nat)
    requires g < |buses|
    ensures NextBus(buses, g) == -1 <==> forall c :: 0 <= c < |buses| && c != g ==> !buses[c].atStation
    ensures NextBus(buses, g) >= 0 ==> NextBus(buses, g) != g && buses[NextBus(buses, g)].atStation
    ensures NextBus(buses, g) >= 0 ==>
              forall c :: 0 <= c < |buses| && c != g && buses[c].atStation ==>
                            Ahead(|buses|, g, NextBus(buses, g)) <= Ahead(|buses|, g, c)
  {
    if NextBus(buses, g) >= 0 {
      NextBusNearest(buses, g);
    }
    if NextBus(buses, g) == -1 {
      forall c | 0 <= c < |buses| && c != g ensures !buses[c].atStation {
        var k := CyclicOffset(|buses|, g, c);
        assert !Candidate(buses, g, k);
      }
    }
  }
}
