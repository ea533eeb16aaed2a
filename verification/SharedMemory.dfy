/** The shared-memory record on the heap: one method per region under SEM_SHM_MUTEX, each proved to do to the record
    what SharedRecord says. */
module SharedMemory {
  import opened Sequences
  import opened Domain
  import opened SharedRecord

  class Shm {
    var running: bool
    var stationOpen: bool
    var boardingAllowed: bool
    var spawningStopped: bool
    var stationClosed: bool
    var testFillQueue: bool
    var created: int
    var transported: int
    var waiting: int
    var inOffice: int
    var leftEarly: int
    var adults: int
    var children: int
    var vipCreated: int
    var soldPeople: int
    var denied: int
    var boarded: int
    var boardedVip: int
    const buses: array<Bus>
    var active: int
    const officeBusy: array<int>
    var issued: int
    const driverPids: array<int>
    const officePids: array<int>

    ghost predicate Valid()
      reads this
    {
      && buses.Length == driverPids.Length && officeBusy.Length == officePids.Length
      && driverPids != officeBusy && driverPids != officePids && officeBusy != officePids
      && -1 <= active < buses.Length
    }

    ghost function View(): (m: Shared)
      reads this, buses, driverPids, officeBusy, officePids
      ensures Valid() ==> Shape(m)
    {
      Shared(running, stationOpen, boardingAllowed, spawningStopped, stationClosed, testFillQueue,
             created, transported, waiting, inOffice, leftEarly, adults, children, vipCreated, soldPeople, denied,
             boarded, boardedVip, buses[..], active, officeBusy[..], issued, driverPids[..], officePids[..])
    }

    /** init_shared_state, for n > 0 buses and k offices. */
    constructor InitSharedState(n: nat, k: nat)
      requires n > 0
      ensures Valid() && View() == InitialShared(n, k)
      ensures fresh(buses) && fresh(driverPids) && fresh(officeBusy) && fresh(officePids)
    {
      running, stationOpen, boardingAllowed := true, true, true;
      spawningStopped, stationClosed, testFillQueue := false, false, false;
      created, transported, waiting, inOffice, leftEarly := 0, 0, 0, 0, 0;
      adults, children, vipCreated, soldPeople, denied, boarded, boardedVip := 0, 0, 0, 0, 0, 0, 0;
      active, issued := 0, 0;
      var bs := new Bus[n](_ => IdleBus());
      var dp := new int[n];
      for i := 0 to n
        invariant forall j :: 0 <= j < i ==> bs[j] == IdleBus() && dp[j] == 0
      {
        bs[i] := Bus(true, false, 0, 0, 0);
        dp[i] := 0;
      }
      var ob := new int[k];
      var op := new int[k];
      for i := 0 to k
        invariant forall j :: 0 <= j < i ==> ob[j] == 0 && op[j] == 0
        invariant forall j :: 0 <= j < n ==> bs[j] == IdleBus() && dp[j] == 0
      {
        ob[i] := 0;
        op[i] := 0;
      }
      buses, driverPids, officeBusy, officePids := bs, dp, ob, op;
      new;
      assert buses[..] == seq(n, i => IdleBus());
      assert driverPids[..] == seq(n, i => 0);
    }

    // --- passenger regions ---

    method RecordArrival(p: PassengerInfo)
      requires Valid()
      modifies this`created, this`adults, this`children, this`vipCreated
      ensures Valid() && View() == SharedRecord.RecordArrival(old(View()), p)
      ensures WellFormedInfo(p) ==> created - adults - children == old(created - adults - children)
    {
      created := created + p.seatCount;
      adults := adults + 1;
      if p.hasChildWith {
        children := children + 1;
      }
      if p.isVip {
        vipCreated := vipCreated + p.seatCount;
      }
    }

    method JoinOffice()
      requires Valid()
      modifies this`inOffice
      ensures Valid() && View() == SharedRecord.JoinOffice(old(View()))
    {
      inOffice := inOffice + 1;
    }

    method LeaveEarly(seats: int)
      requires Valid()
      modifies this`leftEarly
      ensures Valid() && View() == SharedRecord.LeaveEarly(old(View()), seats)
    {
      leftEarly := leftEarly + seats;
    }

    method EnterStation(seats: int) returns (entered: bool)
      requires Valid()
      modifies this`waiting
      ensures Valid() && View() == SharedRecord.EnterStation(old(View()), seats)
      ensures entered == stationOpen
    {
      entered := stationOpen;
      if entered {
        waiting := waiting + seats;
      }
    }

    method AbandonStation(seats: int)
      requires Valid()
      modifies this`waiting, this`leftEarly
      ensures Valid() && View() == SharedRecord.AbandonStation(old(View()), seats)
      ensures seats <= old(waiting) ==> waiting + leftEarly == old(waiting + leftEarly)
    {
      waiting := waiting - seats;
      if waiting < 0 {
        waiting := 0;
      }
      leftEarly := leftEarly + seats;
    }

    // --- ticket office regions ---

    method SetOfficePid(k: nat, pid: int)
      requires Valid() && k < officePids.Length
      modifies officePids
      ensures Valid() && View() == SharedRecord.SetOfficePid(old(View()), k, pid)
    {
      officePids[k] := pid;
    }

    method SetOfficeBusy(k: nat, pid: int)
      requires Valid() && k < officeBusy.Length
      modifies officeBusy
      ensures Valid() && View() == SharedRecord.SetOfficeBusy(old(View()), k, pid)
    {
      officeBusy[k] := pid;
    }

    method IssueTicket(p: PassengerInfo)
      requires Valid()
      modifies this`issued, this`soldPeople, this`inOffice
      ensures Valid() && View() == SharedRecord.IssueTicket(old(View()), p)
      ensures issued + denied + inOffice == old(issued + denied + inOffice)
    {
      issued := issued + 1;
      soldPeople := soldPeople + (if p.seatCount > 0 then p.seatCount else 1);
      inOffice := inOffice - 1;
    }

    method DenyTicket()
      requires Valid()
      modifies this`denied, this`inOffice
      ensures Valid() && View() == SharedRecord.DenyTicket(old(View()))
      ensures issued + denied + inOffice == old(issued + denied + inOffice)
    {
      denied := denied + 1;
      inOffice := inOffice - 1;
    }

    // --- driver regions ---

    method RegisterDriver(g: nat, pid: int)
      requires Valid() && g < buses.Length
      modifies this`active, buses, driverPids
      ensures Valid() && View() == SharedRecord.RegisterDriver(old(View()), g, pid)
    {
      driverPids[g] := pid;
      buses[g] := buses[g].(atStation := true);
      buses[g] := buses[g].(boardingOpen := true);
      buses[g] := buses[g].(passengerCount := 0);
      buses[g] := buses[g].(bikeCount := 0);
      buses[g] := buses[g].(enteringCount := 0);
      if g == 0 {
        active := 0;
      }
      assert buses[..] == old(buses[..])[g := Bus(true, true, 0, 0, 0)];
    }

    /** The first region of process_boarding_request: the check and, if it succeeds, the approval. */
    method CheckAndApprove(cfg: Config, g: nat, p: PassengerInfo) returns (verdict: Verdict)
      requires Valid() && g < buses.Length
      modifies buses
      ensures Valid() && verdict == CanBoard(cfg, old(View()), g, p)
      ensures View() == if verdict == Admitted then Approve(old(View()), g) else old(View())
      ensures verdict == Admitted <==>
                && (p.hasTicket || p.isVip) && boardingAllowed && buses[g].atStation && buses[g].boardingOpen
                && buses[g].passengerCount + SeatsNeeded(p) <= cfg.seats
                && (p.hasBike ==> buses[g].bikeCount + 1 <= cfg.bikes)
    {
      var seats := if p.seatCount > 0 then p.seatCount else 1;
      var bus := buses[g];
      if !p.hasTicket && !p.isVip {
        return TicketMissing;
      }
      if !boardingAllowed {
        return Blocked;
      }
      if !bus.atStation {
        return NotAtStation;
      }
      if !bus.boardingOpen {
        return NotOpen;
      }
      if bus.passengerCount + seats > cfg.seats {
        return NotEnoughSeats;
      }
      if p.hasBike && bus.bikeCount >= cfg.bikes {
        return BikesFull;
      }
      buses[g] := bus.(enteringCount := bus.enteringCount + 1);
      return Admitted;
    }

    /** The bus half of the second region. */
    method FillSeats(g: nat, p: PassengerInfo, seats: int)
      requires Valid() && g < buses.Length
      modifies buses
      ensures buses[..] == old(buses[..])[g := old(buses[g]).(
                passengerCount := old(buses[g]).passengerCount + seats,
                bikeCount := old(buses[g]).bikeCount + (if p.hasBike then 1 else 0),
                enteringCount := old(buses[g]).enteringCount - 1)]
      ensures old(buses[g]).atStation ==>
                Sum(LoadAtStation, buses[..]) == Sum(LoadAtStation, old(buses[..])) + seats
    {
      buses[g] := buses[g].(passengerCount := buses[g].passengerCount + seats);
      if p.hasBike {
        buses[g] := buses[g].(bikeCount := buses[g].bikeCount + 1);
      }
      buses[g] := buses[g].(enteringCount := buses[g].enteringCount - 1);
      assert buses[..] == old(buses[..])[g := buses[g]];
      SumUpdate(LoadAtStation, old(buses[..]), g, buses[g]);
    }

    /** The counter half of the second region. */
    method CountBoarded(p: PassengerInfo, seats: int)
      requires Valid()
      modifies this`waiting, this`boarded, this`boardedVip
      ensures waiting == ClampedMinus(old(waiting), seats) && boarded == old(boarded) + seats
      ensures boardedVip == old(boardedVip) + (if p.isVip then seats else 0)
    {
      waiting := waiting - seats;
      if waiting < 0 {
        waiting := 0;
      }
      boarded := boarded + seats;
      if p.isVip {
        boardedVip := boardedVip + seats;
      }
    }

    /** The second region: the party sits down. */
    method SeatPassenger(g: nat, p: PassengerInfo)
      requires Valid() && g < buses.Length
      modifies this`waiting, this`boarded, this`boardedVip, buses
      ensures Valid() && View() == SharedRecord.SeatPassenger(old(View()), g, p)
      ensures SeatsNeeded(p) <= old(waiting) ==> boarded + waiting == old(boarded + waiting)
      ensures old(buses[g]).atStation ==>
                Sum(LoadAtStation, buses[..]) - boarded == Sum(LoadAtStation, old(buses[..])) - old(boarded)
    {
      var seats := if p.seatCount > 0 then p.seatCount else 1;
      FillSeats(g, p, seats);
      assert buses[..] == SharedRecord.SeatPassenger(old(View()), g, p).buses;
      CountBoarded(p, seats);
    }

    /** depart_bus up to the journey. */
    method DepartBus(g: nat)
      requires Valid() && g < buses.Length
      modifies this`transported, buses
      ensures Valid() && View() == Depart(old(View()), g)
      ensures old(buses[g]).atStation ==>
                transported + Sum(LoadAtStation, buses[..]) == old(transported) + Sum(LoadAtStation, old(buses[..]))
    {
      buses[g] := buses[g].(boardingOpen := false);
      buses[g] := buses[g].(atStation := false);
      transported := transported + buses[g].passengerCount;
      assert buses[..] == Depart(old(View()), g).buses;
      SumUpdate(LoadAtStation, old(buses[..]), g, buses[g]);
    }

    /** depart_bus after the journey. */
    method ReturnBus(g: nat)
      requires Valid() && g < buses.Length
      modifies this`active, buses
      ensures Valid() && View() == Return(old(View()), g)
      ensures active >= 0 && buses[active].atStation
      ensures !old(buses[g]).atStation ==> Sum(LoadAtStation, buses[..]) == Sum(LoadAtStation, old(buses[..]))
    {
      buses[g] := buses[g].(atStation := true);
      buses[g] := buses[g].(passengerCount := 0, bikeCount := 0);
      buses[g] := buses[g].(boardingOpen := true);
      assert buses[..] == old(buses[..])[g := buses[g]];
      SumUpdate(LoadAtStation, old(buses[..]), g, buses[g]);
      var current := active;
      if current < 0 || !buses[current].atStation {
        active := g;
      }
    }

    /** The search for the next bus and the switch of the active bus before a departure. */
    method SwitchActive(g: nat)
      requires Valid() && g < buses.Length
      modifies this`active
      ensures Valid() && View() == SharedRecord.SwitchActive(old(View()), g)
    {
      var next := -1;
      var i := 0;
      while i < buses.Length
        invariant 0 <= i <= buses.Length && next == -1
        invariant NextBus(buses[..], g, i) == NextBus(buses[..], g)
      {
        var check := (g + 1 + i) % buses.Length;
        assert check == Following(buses.Length, g, i);
        if buses[check].atStation && check != g {
          next := check;
          break;
        }
        i := i + 1;
      }
      if next >= 0 {
        active := next;
      } else {
        active := -1;
      }
    }

    method Unregister(g: nat)
      requires Valid() && g < buses.Length
      modifies buses, driverPids
      ensures Valid() && View() == SharedRecord.Unregister(old(View()), g)
    {
      driverPids[g] := 0;
      buses[g] := buses[g].(boardingOpen := false);
    }

    /** A driver's check_shutdown. */
    method DriverCheckShutdown() returns (stop: bool)
      requires Valid()
      ensures stop == DriverMayStop(View())
      ensures stop <==> !running && !(stationClosed && waiting > 0)
    {
      if stationClosed && waiting > 0 {
        return false;
      }
      return !running;
    }

    /** should_depart; departureTime is the bus's field of that name, now the clock, and early the driver's
        g_early_departure. */
    method ShouldDepart(cfg: Config, g: nat, departureTime: int, now: int, early: bool)
      returns (go: bool, earlyAfter: bool)
      requires Valid() && g < buses.Length
      ensures (go, earlyAfter) ==
              SharedRecord.ShouldDepart(cfg, View().buses[g], departureTime > 0 && now >= departureTime, early)
      ensures go && cfg.seats > 0 ==> buses[g].passengerCount > 0
      ensures var count := buses[g].passengerCount; var due := departureTime > 0 && now >= departureTime;
              && (go <==> (cfg.departWhenFull && count >= cfg.seats) || (count > 0 && (due || early)))
              && (earlyAfter != early <==> early && count > 0 && !due && !(cfg.departWhenFull && count >= cfg.seats))
    {
      earlyAfter := early;
      var passengers := buses[g].passengerCount;
      var atCapacity := passengers >= cfg.seats;
      if cfg.departWhenFull && atCapacity { return true, earlyAfter; }
      if departureTime > 0 && now >= departureTime && passengers > 0 { return true, earlyAfter; }
      if early && passengers > 0 { return true, false; }
      return false, earlyAfter;
    }

    /** An office's check_shutdown. */
    method OfficeCheckShutdown() returns (stop: bool)
      requires Valid()
      ensures stop == OfficeMustStop(View())
      ensures stop <==> !(running && !stationClosed)
    {
      return !running || stationClosed;
    }

    // --- dispatcher and main regions ---

    method CloseStation() returns (wake: bool)
      requires Valid()
      modifies this`stationClosed, this`stationOpen, this`spawningStopped
      ensures Valid() && View() == SharedRecord.CloseStation(old(View())) && wake == !old(stationClosed)
      ensures SharedRecord.CloseStation(View()) == View()
      ensures stationClosed && (wake ==> !stationOpen && spawningStopped)
    {
      wake := !stationClosed;
      if wake {
        stationClosed := true;
        stationOpen := false;
        spawningStopped := true;
      }
    }

    method StopSpawning()
      requires Valid()
      modifies this`spawningStopped
      ensures Valid() && View() == SharedRecord.StopSpawning(old(View()))
    {
      spawningStopped := true;
    }

    /** The first loop of check_driver_health. */
    method ClearDeadDrivers(dead: seq<bool>) returns (activeDriverDead: bool)
      requires Valid() && |dead| == buses.Length
      modifies buses, driverPids
      ensures Valid() && View() == ClearDead(old(View()), dead)
      ensures DeadCleared(old(View()), dead, View())
      ensures activeDriverDead ==> active >= 0 && driverPids[active] == 0
    {
      activeDriverDead := false;
      ghost var pids, bs := driverPids[..], buses[..];
      ghost var c := ClearDead(View(), dead);
      var i := 0;
      while i < buses.Length
        invariant 0 <= i <= buses.Length
        invariant forall j :: 0 <= j < i ==> driverPids[j] == c.driverPids[j] && buses[j] == c.buses[j]
        invariant forall j :: i <= j < buses.Length ==> driverPids[j] == pids[j] && buses[j] == bs[j]
        invariant activeDriverDead ==> 0 <= active < i && driverPids[active] == 0
      {
        if driverPids[i] > 0 && dead[i] {
          driverPids[i] := 0;
          buses[i] := buses[i].(boardingOpen := false);
          if i == active {
            activeDriverDead := true;
          }
        }
        i := i + 1;
      }
      assert buses[..] == c.buses && driverPids[..] == c.driverPids;
      ClearDeadMeaning(old(View()), dead);
    }

    /** The second half of check_driver_health: the search and the reassignment. */
    method ReassignActive()
      requires Valid()
      modifies this`active, buses
      ensures Valid() && View() == Reassign(old(View()))
    {
      var newActive := -1;
      var i := 0;
      while i < buses.Length
        invariant 0 <= i <= buses.Length && newActive == -1
        invariant FirstLive(driverPids[..], buses[..], i) == FirstLive(driverPids[..], buses[..])
      {
        if driverPids[i] > 0 && buses[i].atStation {
          newActive := i;
          break;
        }
        i := i + 1;
      }
      if newActive >= 0 {
        active := newActive;
        buses[newActive] := buses[newActive].(boardingOpen := true);
      } else {
        active := -1;
      }
    }

    /** check_driver_health: dead drivers are cleared and, if the active one is among them, another is chosen. */
    method CheckDriverHealth(dead: seq<bool>)
      requires Valid() && |dead| == buses.Length
      modifies this`active, buses, driverPids
      ensures Valid() && View() == Watchdog(old(View()), dead)
      ensures DeadCleared(old(View()), dead, View()) && Replaced(old(View()), dead, View())
    {
      WatchdogMeaning(View(), dead);
      var activeBus := active;
      var activeDriverDead := ClearDeadDrivers(dead);
      if activeDriverDead || (activeBus >= 0 && driverPids[activeBus] == 0) {
        ReassignActive();
      }
    }

    method AllBusesAtStationAndEmpty() returns (done: bool)
      requires Valid()
      ensures done == AllAtStationAndEmpty(buses[..])
    {
      for i := 0 to buses.Length
        invariant forall j :: 0 <= j < i ==>
                    buses[j].atStation && buses[j].passengerCount == 0 && buses[j].enteringCount == 0
      {
        if !buses[i].atStation { return false; }
        if buses[i].passengerCount != 0 { return false; }
        if buses[i].enteringCount != 0 { return false; }
      }
      return true;
    }

    method CheckSimulationEnd() returns (over: bool)
      requires Valid()
      ensures over == SimulationOver(View())
      ensures over <==> !testFillQueue
                        && (!running
                            || (spawningStopped && waiting <= 0 && inOffice <= 0
                                && forall i :: 0 <= i < buses.Length ==>
                                     buses[i].atStation && buses[i].passengerCount == 0 && buses[i].enteringCount == 0))
    {
      var done := !running;
      var busesDone := AllBusesAtStationAndEmpty();
      if testFillQueue { return false; }
      if done { return true; }
      if spawningStopped && waiting <= 0 && inOffice <= 0 && busesDone { return true; }
      return false;
    }

    /** The sum over buses in main's drain test and in the final statistics. */
    method OnBusTotal() returns (total: int)
      requires Valid()
      ensures total == Sum(OnBus, buses[..])
    {
      total := 0;
      for i := 0 to buses.Length
        invariant total + Sum(OnBus, buses[i..]) == Sum(OnBus, buses[..])
      {
        assert buses[i..][1..] == buses[i + 1..];
        total := total + buses[i].passengerCount;
      }
    }

    /** main's drain test. */
    method DrainIsComplete() returns (complete: bool)
      requires Valid()
      ensures complete == DrainComplete(View())
    {
      var onBus := OnBusTotal();
      var sum := transported + waiting + inOffice + onBus + leftEarly;
      complete := spawningStopped && created > 0 && waiting == 0 && inOffice == 0 && sum == created;
    }

    /** The dispatcher's shutdown region. */
    method Shutdown()
      requires Valid()
      modifies this`running, this`transported, buses
      ensures Valid() && View() == SharedRecord.Shutdown(old(View()))
    {
      ghost var m := View();
      running := false;
      assert m.buses[0..] == m.buses;
      var i := 0;
      while i < buses.Length
        invariant 0 <= i <= buses.Length
        invariant !running
        invariant forall j :: 0 <= j < i ==> buses[j] == EmptiedBus(m.buses[j])
        invariant forall j :: i <= j < buses.Length ==> buses[j] == m.buses[j]
        invariant transported + Sum(FoldedLoad, m.buses[i..]) == m.transported + Sum(FoldedLoad, m.buses)
      {
        assert m.buses[i..][1..] == m.buses[i + 1..];
        var onBus := buses[i].passengerCount;
        if onBus > 0 {
          transported := transported + onBus;
          buses[i] := buses[i].(passengerCount := 0);
        }
        i := i + 1;
      }
      assert m.buses[i..] == [];
      assert buses[..] == SharedRecord.Shutdown(m).buses;
    }
  }

  /** The two ticket queues and the slot semaphore, with the record they serve. */
  class TicketDesk {
    const shm: Shm
    var slots: int
    var requests: seq<TicketRequest>
    var responses: seq<TicketResponse>

    constructor (shm: Shm, slots: int)
      ensures this.shm == shm && this.slots == slots && requests == [] && responses == []
    {
      this.shm, this.slots, requests, responses := shm, slots, [], [];
    }

    /** drain_queue_on_close, with no request arriving meanwhile: the queue ends empty, and every request removed
        gives back its slot, counts as denied, leaves the office and is answered "no", in queue order. */
    method DrainQueueOnClose(office: int)
      requires shm.Valid()
      modifies this, shm`denied, shm`inOffice
      ensures shm.Valid() && requests == []
      ensures slots == old(slots) + |old(requests)|
      ensures shm.View() == old(shm.View()).(denied := old(shm.denied) + |old(requests)|,
                                             inOffice := old(shm.inOffice) - |old(requests)|)
      ensures responses == old(responses) + Refusals(old(requests), office)
    {
      while requests != []
        invariant shm.Valid()
        invariant slots + |requests| == old(slots) + |old(requests)|
        invariant shm.denied + |requests| == old(shm.denied) + |old(requests)|
        invariant shm.inOffice - |requests| == old(shm.inOffice) - |old(requests)|
        invariant responses + Refusals(requests, office) == old(responses) + Refusals(old(requests), office)
        decreases |requests|
      {
        var request := requests[0];
        RefusalsInTurn(responses, requests, office);
        requests := requests[1..];
        slots := slots + 1;
        shm.DenyTicket();
        responses := responses + [TicketAnswer(request.passenger, office, false)];
      }
    }
  }

  lemma RefusalsInTurn(sent: seq<TicketResponse>, q: seq<TicketRequest>, office: int)
    requires q != []
    ensures sent + Refusals(q, office)
         == sent + [TicketAnswer(q[0].passenger, office, false)] + Refusals(q[1..], office)
  {
  }

  function Refusals(q: seq<TicketRequest>, office: int): (r: seq<TicketResponse>)
    ensures |r| == |q|
    ensures forall j :: 0 <= j < |q| ==> r[j] == TicketResponse(q[j].passenger.pid, q[j].passenger, office, false)
  {
    if q == [] then []
    else [TicketAnswer(q[0].passenger, office, false)] + Refusals(q[1..], office)
  }
}
