/** Every step of the dispatcher and of main keeps the global invariant. */
module DispatcherSteps {
  import opened Sequences
  import opened Channels
  import opened Domain
  import opened SharedRecord
  import opened Protocol
  import opened Invariants
  import opened Parts

  // --- closing ---

  /** Closing never invalidates what a party knows: entry attempts may fail from now on, and only from now on. */
  lemma ClosingParties(ps: seq<Party>, open: bool, running: bool)
    requires PartiesOk(ps, open, running)
    ensures PartiesOk(ps, false, running) && PartiesOk(ps, open, false)
  {
    forall i | 0 <= i < |ps| ensures PartyOk(ps[i], i, false, running) && PartyOk(ps[i], i, open, false) {
      assert PartyOk(ps[i], i, open, running);
    }
  }

  lemma CloseKeeps(cfg: Config, s: State)
    requires Inv(cfg, s) && Enabled(s, ClosingSignal)
    ensures Inv(cfg, Apply(cfg, s, ClosingSignal))
  {
    ClosingParties(s.ps, s.shm.stationOpen, s.shm.running);
  }

  lemma WakeKeeps(cfg: Config, s: State, step: Step)
    requires Inv(cfg, s) && Enabled(s, step) && (step.WakeEntryQueue? || step.WakeTicketQueue?)
    ensures Inv(cfg, Apply(cfg, s, step))
  {
  }

  lemma SignalKeeps(cfg: Config, s: State, step: Step)
    requires Inv(cfg, s) && Enabled(s, step) && (step.EndTest? || step.TerminateSignal? || step.SpawningStops?)
    ensures Inv(cfg, Apply(cfg, s, step))
  {
  }

  // --- watchdog ---

  lemma ClearedRows(cfg: Config, m: Shared, ds: seq<Driver>, dead: seq<bool>)
    requires Shape(m) && |dead| == |ds| && BusesOk(cfg, m.buses, m.driverPids, ds)
    requires forall g :: 0 <= g < |dead| && dead[g] ==> ds[g].crashed
    ensures var c := ClearDead(m, dead); BusesOk(cfg, c.buses, c.driverPids, ds)
    ensures forall g :: 0 <= g < |ds| ==>
              ClearDead(m, dead).buses[g] == m.buses[g].(boardingOpen := ClearDead(m, dead).buses[g].boardingOpen)
  {
    var c := ClearDead(m, dead);
    forall g | 0 <= g < |ds| ensures BusOk(cfg, c.buses[g], c.driverPids[g], ds[g]) {
      assert BusOk(cfg, m.buses[g], m.driverPids[g], ds[g]);
    }
  }

  /** The watchdog moves no one and opens no door that was not open: it only strips crashed drivers. */
  lemma WatchdogRows(cfg: Config, m: Shared, ds: seq<Driver>, dead: seq<bool>)
    requires Shape(m) && |dead| == |ds| == |m.buses|
    requires var c := ClearDead(m, dead); BusesOk(cfg, c.buses, c.driverPids, ds)
    ensures var c := ClearDead(m, dead); var m' := Watchdog(m, dead);
            m' == c.(active := m'.active) && -1 <= m'.active < |ds|
  {
    var c := ClearDead(m, dead);
    var next := FirstLive(c.driverPids, c.buses);
    if next >= 0 {
      assert BusOk(cfg, c.buses[next], c.driverPids[next], ds[next]);
      assert WithOpen(c.buses, next) == c.buses;
    }
  }

  lemma LoadsAlike(ps: seq<Party>, buses: seq<Bus>, buses': seq<Bus>, ds: seq<Driver>)
    requires |buses'| == |buses| == |ds|
    requires forall g :: 0 <= g < |ds| ==> buses'[g] == buses[g].(boardingOpen := buses'[g].boardingOpen)
    ensures Sum(LoadAtStation, buses') == Sum(LoadAtStation, buses)
    ensures Manifest(ps, buses, ds) ==> Manifest(ps, buses', ds)
    ensures BikeManifest(ps, buses, ds) ==> BikeManifest(ps, buses', ds)
  {
    SumPointwise(LoadAtStation, LoadAtStation, buses', buses);
  }

  lemma WatchdogKeeps(cfg: Config, s: State, dead: seq<bool>)
    requires Inv(cfg, s) && Enabled(s, WatchdogRound(dead))
    ensures Inv(cfg, Apply(cfg, s, WatchdogRound(dead)))
  {
    ClearedRows(cfg, s.shm, s.ds, dead);
    WatchdogRows(cfg, s.shm, s.ds, dead);
    LoadsAlike(s.ps, s.shm.buses, ClearDead(s.shm, dead).buses, s.ds);
  }

  // --- shutdown ---

  /** Everyone recorded on a bus is folded into `transported`: those at the station for the first time,
      those off the station for the second. */
  lemma FoldSplits(buses: seq<Bus>)
    requires forall g :: 0 <= g < |buses| ==> buses[g].passengerCount >= 0
    ensures Sum(FoldedLoad, buses) == Sum(LoadAtStation, buses) + Sum(LoadTravelling, buses)
    ensures Sum(OnBus, buses) == Sum(LoadAtStation, buses) + Sum(LoadTravelling, buses)
    ensures Sum(LoadTravelling, buses) >= 0
  {
    SumSplit(FoldedLoad, LoadAtStation, LoadTravelling, buses);
    SumSplit(OnBus, LoadAtStation, LoadTravelling, buses);
    SumNonNegative(LoadTravelling, buses);
  }

  lemma ShutdownBuses(cfg: Config, s: State)
    requires Dimensions(s) && BusesOk(cfg, s.shm.buses, s.shm.driverPids, s.ds)
    ensures BusesOk(cfg, Shutdown(s.shm).buses, s.shm.driverPids, FoldTrips(s))
    ensures Sum(LoadAtStation, Shutdown(s.shm).buses) == 0
  {
    var buses' := Shutdown(s.shm).buses;
    forall g | 0 <= g < |s.ds|
      ensures BusOk(cfg, buses'[g], s.shm.driverPids[g], FoldTrips(s)[g]) && LoadAtStation(buses'[g]) == 0
    {
      assert BusOk(cfg, s.shm.buses[g], s.shm.driverPids[g], s.ds[g]);
    }
    SumZero(LoadAtStation, buses');
  }

  lemma ShutdownManifest(cfg: Config, s: State)
    requires Dimensions(s) && BusesOk(cfg, s.shm.buses, s.shm.driverPids, s.ds)
    requires Manifest(s.ps, s.shm.buses, s.ds) && BikeManifest(s.ps, s.shm.buses, s.ds) && RidesPast(s.ps, s.ds)
    ensures Manifest(s.ps, Shutdown(s.shm).buses, FoldTrips(s)) && RidesPast(s.ps, FoldTrips(s))
    ensures BikeManifest(s.ps, Shutdown(s.shm).buses, FoldTrips(s))
  {
    var buses' := Shutdown(s.shm).buses;
    var ds' := FoldTrips(s);
    forall g | 0 <= g < |ds'| ensures LoadAtStation(buses'[g]) == Sum(OnTrip(g, ds'[g].trip), s.ps) {
      assert BusOk(cfg, s.shm.buses[g], s.shm.driverPids[g], s.ds[g]);
      FutureTripEmpty(s.ps, s.ds, g);
    }
    forall i | 0 <= i < |s.ps| && Rode(s.ps[i]) ensures RideOk(s.ps[i].rides[0], ds') {
      assert RideOk(s.ps[i].rides[0], s.ds);
    }
  }

  lemma ShutdownChannel(s: State)
    requires Dimensions(s) && BoardingChannel(s.ps, s.ds, s.boardQ, s.boardR)
    ensures BoardingChannel(s.ps, FoldTrips(s), s.boardQ, s.boardR)
  {
    var ds' := FoldTrips(s);
    forall g | 0 <= g < |ds'| ensures HeldOk(s.ps, ds'[g], g) {
      assert HeldOk(s.ps, s.ds[g], g);
    }
    ServersAlike(WaitsToBoard, s.ps, BoardingRequestPid, s.boardQ, Serving, s.ds, BoardingResponseKey, s.boardR, ds');
  }

  lemma ShutdownFlows(cfg: Config, s: State)
    requires Dimensions(s) && BoardingFlow(cfg, s.boardSlots, s.ps, s.ds, s.boardQ, s.boardR)
    requires DoorFlow(s.passengerDoor, s.bikeDoor, s.ds)
    ensures BoardingFlow(cfg, s.boardSlots, s.ps, FoldTrips(s), s.boardQ, s.boardR)
    ensures DoorFlow(s.passengerDoor, s.bikeDoor, FoldTrips(s))
  {
    var ds' := FoldTrips(s);
    SumPointwise(InService, InService, ds', s.ds);
    SumPointwise(InPassengerDoor, InPassengerDoor, ds', s.ds);
    SumPointwise(InBikeDoor, InBikeDoor, ds', s.ds);
  }

  lemma ShutdownLedgers(cfg: Config, s: State)
    requires Dimensions(s) && BusesOk(cfg, s.shm.buses, s.shm.driverPids, s.ds)
    requires Ledgers(s.shm, s.ps) && TransportLedger(s.shm, s.overcount)
    ensures Ledgers(Shutdown(s.shm), s.ps)
    ensures TransportLedger(Shutdown(s.shm), s.overcount + Sum(LoadTravelling, s.shm.buses))
    ensures BusesOk(cfg, Shutdown(s.shm).buses, s.shm.driverPids, FoldTrips(s))
  {
    forall g | 0 <= g < |s.shm.buses| ensures s.shm.buses[g].passengerCount >= 0 {
      assert BusOk(cfg, s.shm.buses[g], s.shm.driverPids[g], s.ds[g]);
    }
    FoldSplits(s.shm.buses);
    ShutdownBuses(cfg, s);
  }

  lemma ShutdownKeeps(cfg: Config, s: State)
    requires Inv(cfg, s) && Enabled(s, ShutDown)
    ensures Inv(cfg, Apply(cfg, s, ShutDown))
  {
    ShutdownLedgers(cfg, s);
    ShutdownManifest(cfg, s);
    ShutdownChannel(s);
    ShutdownFlows(cfg, s);
    ClosingParties(s.ps, s.shm.stationOpen, s.shm.running);
  }
}
