/** Capacity counted in people instead of in the counters of a bus: who boarded it since it last departed. The two
    agree until the shutdown clears the count of a bus that stays at the station with its people on board. */
module Capacity {
  import opened Sequences
  import opened Domain
  import opened SharedRecord
  import opened Protocol
  import opened Invariants
  import opened Parts
  import opened Reachability
  import opened Frames
  import opened Conservation
  import opened Transport
  import DriverSteps
  import OfficeSteps
  import PartySteps

  /** The people who boarded bus g on journey v, and on its current one. */
  function Riding(s: State, g: nat, v: nat): int { Sum(OnJourney(g, v), s.ps) }

  /** The bikes they took along. */
  function RidingBikes(s: State, g: nat, v: nat): int { Sum(BikeOnJourney(g, v), s.ps) }

  function Aboard(s: State, g: nat): int
    requires g < |s.ds|
  {
    Riding(s, g, s.ds[g].journey)
  }

  function Load(s: State, g: nat): int
    requires g < |s.shm.buses|
  {
    LoadAtStation(s.shm.buses[g])
  }

  // --- one step at one bus ---

  /** A bus and its people: both change alike, or the bus departs on a new journey, empty as yet. */
  predicate CountFollows(s: State, t: State, g: nat) {
    && g < |s.ds| == |s.shm.buses| && g < |t.ds| == |t.shm.buses|
    && if t.ds[g].journey == s.ds[g].journey then
         Aboard(t, g) - Aboard(s, g) == Load(t, g) - Load(s, g)
       else
         t.ds[g].journey == s.ds[g].journey + 1 && Load(t, g) == 0 && t.ps == s.ps
  }

  /** Nobody joins a journey other than the current one. */
  ghost predicate OthersKept(s: State, t: State, g: nat) {
    && g < |t.ds|
    && (forall v: nat :: v != t.ds[g].journey ==> Riding(t, g, v) == Riding(s, g, v))
    && (forall v: nat :: v != t.ds[g].journey ==> RidingBikes(t, g, v) == RidingBikes(s, g, v))
  }

  ghost predicate BusFollows(s: State, t: State, g: nat) {
    CountFollows(s, t, g) && OthersKept(s, t, g)
  }

  /** A change of one party that leaves its rides alone moves nobody. */
  lemma SameRidesFollow(s: State, t: State, i: nat, p': Party, g: nat)
    requires g < |s.ds| == |s.shm.buses| && t.ds == s.ds && t.shm.buses == s.shm.buses
    requires i < |s.ps| && t.ps == s.ps[i := p'] && SameRides(s.ps[i], p')
    ensures BusFollows(s, t, g)
  {
    forall v: nat ensures Riding(t, g, v) == Riding(s, g, v) && RidingBikes(t, g, v) == RidingBikes(s, g, v) {
      SumUpdate(OnJourney(g, v), s.ps, i, p');
      SumUpdate(BikeOnJourney(g, v), s.ps, i, p');
    }
  }

  lemma PartyFollowsBus(cfg: Config, s: State, i: nat, childFails: bool, g: nat)
    requires Inv(cfg, s) && i < |s.ps| && PartyEnabled(s, i) && g < |s.ds|
    ensures BusFollows(s, PartyStep(s, i, childFails), g)
  {
    var t := PartyStep(s, i, childFails);
    PartySteps.PartyMoves(cfg, s, i, childFails);
    SameRidesFollow(s, t, i, t.ps[i], g);
  }

  lemma SaleFollowsBus(cfg: Config, s: State, k: nat, g: nat)
    requires Inv(cfg, s) && k < |s.os| && OfficeEnabled(s, k) && s.os[k].Serve? && g < |s.ds|
    ensures BusFollows(s, OfficeStep(s, k), g)
  {
    var i := Selling(s.os[k]) - 1;
    OfficeSteps.HeldRequestValid(s, k);
    OfficeSteps.ServeShape(s, k);
    SameRidesFollow(s, OfficeStep(s, k), i, OfficeSteps.Bought(s.ps[i]), g);
  }

  lemma DenialFollowsBus(cfg: Config, s: State, k: nat, g: nat)
    requires Inv(cfg, s) && k < |s.os| && OfficeEnabled(s, k) && s.os[k].DrainDeny? && g < |s.ds|
    ensures BusFollows(s, OfficeStep(s, k), g)
  {
    var i := Selling(s.os[k]) - 1;
    OfficeSteps.DenyShape(s, k);
    SameRidesFollow(s, OfficeStep(s, k), i, OfficeSteps.TurnedAway(s.ps[i]), g);
  }

  lemma OfficeFollowsBus(cfg: Config, s: State, k: nat, g: nat)
    requires Inv(cfg, s) && k < |s.os| && OfficeEnabled(s, k) && g < |s.ds|
    ensures BusFollows(s, OfficeStep(s, k), g)
  {
    if s.os[k].Serve? {
      SaleFollowsBus(cfg, s, k, g);
    } else if s.os[k].DrainDeny? {
      DenialFollowsBus(cfg, s, k, g);
    } else {
      OfficeSteps.OfficeMoves(cfg, s, k);
    }
  }

  lemma DriverFollowsBus(cfg: Config, s: State, h: nat, due: bool, g: nat)
    requires Inv(cfg, s) && h < |s.ds| && DriverEnabled(s, h) && !s.ds[h].pc.AtDoor? && g < |s.ds|
    ensures BusFollows(s, DriverStep(cfg, s, h, due), g)
  {
    DriverSteps.DriverMoves(cfg, s, h, due);
  }

  lemma OneMoreRiding(s: State, t: State, i: nat, ride: Ride, g: nat)
    requires i < |s.ps| && s.ps[i].rides == [] && t.ps == s.ps[i := DriverSteps.Seated(s.ps[i], ride)]
    ensures forall v: nat ::
              Riding(t, g, v) == Riding(s, g, v) + When(g == ride.bus && v == ride.journey, s.ps[i].info.seatCount)
    ensures forall v: nat :: v != ride.journey || g != ride.bus ==> RidingBikes(t, g, v) == RidingBikes(s, g, v)
  {
    forall v: nat
      ensures Riding(t, g, v) == Riding(s, g, v) + When(g == ride.bus && v == ride.journey, s.ps[i].info.seatCount)
      ensures v != ride.journey || g != ride.bus ==> RidingBikes(t, g, v) == RidingBikes(s, g, v)
    {
      SumUpdate(OnJourney(g, v), s.ps, i, t.ps[i]);
      SumUpdate(BikeOnJourney(g, v), s.ps, i, t.ps[i]);
    }
  }

  lemma SeatedFollow(s: State, t: State, h: nat, i: nat, d': Driver, b': Bus, g: nat)
    requires g < |s.ds| == |s.shm.buses| && h < |s.ds| && i < |s.ps| && s.ps[i].rides == []
    requires t.ps == s.ps[i := DriverSteps.Seated(s.ps[i], RideOn(h, s.ds[h]))] && t.ds == s.ds[h := d']
    requires t.shm.buses == s.shm.buses[h := b'] && d'.journey == s.ds[h].journey
    requires LoadAtStation(b') == LoadAtStation(s.shm.buses[h]) + s.ps[i].info.seatCount
    ensures BusFollows(s, t, g)
  {
    OneMoreRiding(s, t, i, RideOn(h, s.ds[h]), g);
  }

  lemma SeatLoad(cfg: Config, s: State, h: nat, i: nat)
    requires Inv(cfg, s) && h < |s.ds| && s.ds[h].pc.AtDoor? && i < |s.ps| && s.ds[h].pc.req.passenger == s.ps[i].info
    ensures LoadAtStation(SeatPassenger(s.shm, h, s.ps[i].info).buses[h])
         == LoadAtStation(s.shm.buses[h]) + s.ps[i].info.seatCount
  {
    assert PartyOk(s.ps[i], i, s.shm.stationOpen, s.shm.running);
    assert BusOk(cfg, s.shm.buses[h], s.shm.driverPids[h], s.ds[h]);
    DriverSteps.SeatBus(cfg, s.shm, h, s.shm.driverPids[h], s.ds[h]);
  }

  lemma SeatFollowsBus(cfg: Config, s: State, h: nat, due: bool, g: nat)
    requires Inv(cfg, s) && h < |s.ds| && DriverEnabled(s, h) && s.ds[h].pc.AtDoor? && g < |s.ds|
    ensures BusFollows(s, DriverStep(cfg, s, h, due), g)
  {
    var i := Serving(s.ds[h]) - 1;
    DriverSteps.ReadyDriver(cfg, s, h);
    DriverSteps.SeatShape(cfg, s, h, due);
    SeatLoad(cfg, s, h, i);
    var d' := s.ds[h].(pc := LeaveDoor(s.ds[h].pc.req));
    var m' := SeatPassenger(s.shm, h, s.ps[i].info);
    SeatedFollow(s, DriverStep(cfg, s, h, due), h, i, d', m'.buses[h], g);
  }

  lemma EnvironmentFollowsBus(cfg: Config, s: State, step: Step, g: nat)
    requires Inv(cfg, s) && Enabled(s, step) && g < |s.ds|
    requires IsQuietEnvironment(step) || step.ClosingSignal?
    ensures BusFollows(s, Apply(cfg, s, step), g)
  {
    if IsQuietEnvironment(step) {
      EnvironmentFrame(cfg, s, step);
      EnvironmentDrivers(cfg, s, step);
    }
  }

  lemma WatchdogFollowsBus(cfg: Config, s: State, dead: seq<bool>, g: nat)
    requires Inv(cfg, s) && Enabled(s, WatchdogRound(dead)) && g < |s.ds|
    ensures BusFollows(s, Apply(cfg, s, WatchdogRound(dead)), g)
  {
    WatchdogBuses(cfg, s, dead, g);
  }

  /** Short of the shutdown, a bus's count follows its people in every step of every process. */
  lemma StepFollowsBus(cfg: Config, s: State, step: Step, g: nat)
    requires Inv(cfg, s) && Enabled(s, step) && g < |s.ds| && !step.ShutDown?
    ensures BusFollows(s, Apply(cfg, s, step), g)
  {
    if step.PartyMove? {
      PartyFollowsBus(cfg, s, step.i, step.childFails, g);
    } else if step.DriverMove? && s.ds[step.g].pc.AtDoor? {
      SeatFollowsBus(cfg, s, step.g, step.due, g);
    } else if step.DriverMove? {
      DriverFollowsBus(cfg, s, step.g, step.due, g);
    } else if step.OfficeMove? {
      OfficeFollowsBus(cfg, s, step.k, g);
    } else if step.WatchdogRound? {
      WatchdogFollowsBus(cfg, s, step.dead, g);
    } else {
      EnvironmentFollowsBus(cfg, s, step, g);
    }
  }

  /** The shutdown moves nobody, and clears the counts at the station. */
  lemma ShutdownAtBus(cfg: Config, s: State, g: nat)
    requires Inv(cfg, s) && Enabled(s, ShutDown) && g < |s.ds|
    ensures var t := Apply(cfg, s, ShutDown);
            && s.shm.running && !t.shm.running && t.ps == s.ps && |t.ds| == |s.ds| && |t.shm.buses| == |s.shm.buses|
            && t.ds[g].journey == s.ds[g].journey && Load(t, g) == 0
  {
    ShutdownFrame(cfg, s);
    assert BusOk(cfg, s.shm.buses[g], s.shm.driverPids[g], s.ds[g]);
  }

  lemma OthersKeep(cfg: Config, s: State, step: Step, g: nat)
    requires Inv(cfg, s) && Enabled(s, step) && g < |s.ds|
    ensures OthersKept(s, Apply(cfg, s, step), g)
  {
    if step.ShutDown? { ShutdownAtBus(cfg, s, g); } else { StepFollowsBus(cfg, s, step, g); }
  }

  // --- counts and people ---

  /** Bus g's count tells who is aboard. */
  predicate Tells(s: State, g: nat) {
    g < |s.ds| && g < |s.shm.buses| && Aboard(s, g) == Load(s, g)
  }

  predicate AllTell(s: State) {
    forall g :: 0 <= g < |s.ds| ==> Tells(s, g)
  }

  /** From s to t the dispatcher shuts down and finds people on a bus at the station. */
  predicate FoldsPeople(s: State, t: State) {
    s.shm.running && !t.shm.running && AtStation(s) > 0
  }

  lemma ShutdownTells(cfg: Config, s: State, g: nat)
    requires Inv(cfg, s) && Enabled(s, ShutDown) && g < |s.ds| && Tells(s, g)
    ensures Tells(Apply(cfg, s, ShutDown), g) <==> Load(s, g) == 0
  {
    ShutdownAtBus(cfg, s, g);
  }

  lemma StationEmptyIff(cfg: Config, s: State)
    requires Inv(cfg, s)
    ensures AtStation(s) >= 0
    ensures AtStation(s) > 0 <==> exists g :: 0 <= g < |s.ds| && Load(s, g) != 0
  {
    forall g | 0 <= g < |s.ds| ensures Load(s, g) >= 0 {
      assert BusOk(cfg, s.shm.buses[g], s.shm.driverPids[g], s.ds[g]);
    }
    SumNonNegative(LoadAtStation, s.shm.buses);
    if AtStation(s) == 0 {
      SumZeroAll(LoadAtStation, s.shm.buses);
    } else if forall g :: 0 <= g < |s.ds| ==> Load(s, g) == 0 {
      forall g | 0 <= g < |s.shm.buses| ensures LoadAtStation(s.shm.buses[g]) == 0 {
        assert Load(s, g) == 0;
      }
      SumZero(LoadAtStation, s.shm.buses);
    }
  }

  lemma ShutdownTellsIff(cfg: Config, s: State)
    requires Inv(cfg, s) && AllTell(s) && Enabled(s, ShutDown)
    ensures AllTell(Apply(cfg, s, ShutDown)) <==> AtStation(s) == 0
  {
    var t := Apply(cfg, s, ShutDown);
    StationEmptyIff(cfg, s);
    SameFleet(cfg, s, ShutDown);
    forall g | 0 <= g < |s.ds| ensures Tells(t, g) <==> Load(s, g) == 0 {
      assert Tells(s, g);
      ShutdownTells(cfg, s, g);
    }
  }

  lemma SameFleet(cfg: Config, s: State, step: Step)
    requires Inv(cfg, s) && Enabled(s, step)
    ensures |Apply(cfg, s, step).ds| == |s.ds|
  {
    if step.PartyMove? {
      PartyFrame(cfg, s, step.i, step.childFails);
    } else if step.DriverMove? {
      DriverFleet(cfg, s, step.g, step.due);
    } else if step.OfficeMove? {
      OfficeFrame(cfg, s, step.k);
    } else if IsQuietEnvironment(step) {
      EnvironmentFrame(cfg, s, step);
    }
  }

  lemma DriverFleet(cfg: Config, s: State, g: nat, due: bool)
    requires Inv(cfg, s) && g < |s.ds| && DriverEnabled(s, g)
    ensures |DriverStep(cfg, s, g, due).ds| == |s.ds|
  {
    if s.ds[g].pc.AtDoor? { SeatFrame(cfg, s, g, due); } else { DriverFrame(cfg, s, g, due); }
  }

  lemma StepTells(cfg: Config, s: State, step: Step)
    requires Inv(cfg, s) && AllTell(s) && Enabled(s, step) && !step.ShutDown?
    ensures AllTell(Apply(cfg, s, step))
  {
    SameFleet(cfg, s, step);
    forall g | 0 <= g < |s.ds| ensures Tells(Apply(cfg, s, step), g) {
      assert Tells(s, g);
      StepFollowsBus(cfg, s, step, g);
      NobodyAhead(cfg, s, g, s.ds[g].journey + 1);
    }
  }

  /** Each step keeps the counts true if and only if it is not a shutdown that finds people at the station. */
  lemma StepTellsIff(cfg: Config, s: State, step: Step)
    requires Inv(cfg, s) && AllTell(s) && Enabled(s, step)
    ensures AllTell(Apply(cfg, s, step)) <==> !FoldsPeople(s, Apply(cfg, s, step))
  {
    var t := Apply(cfg, s, step);
    if step.ShutDown? {
      ShutdownFrame(cfg, s);
      ShutdownTellsIff(cfg, s);
      StationEmptyIff(cfg, s);
    } else {
      if s.shm.running { OnlyShutdownStops(cfg, s, step); }
      StepTells(cfg, s, step);
    }
  }

  /** Nobody has yet boarded a journey that has not begun. */
  lemma NobodyAhead(cfg: Config, s: State, g: nat, v: nat)
    requires Inv(cfg, s) && g < |s.ds| && v > s.ds[g].journey
    ensures Riding(s, g, v) == 0
  {
    forall i | 0 <= i < |s.ps| ensures OnJourney(g, v)(s.ps[i]) == 0 {
      assert Rode(s.ps[i]) ==> RideOk(s.ps[i].rides[0], s.ds);
    }
    SumZero(OnJourney(g, v), s.ps);
  }

  lemma TellsAt(cfg: Config, run: seq<State>, k: nat)
    requires IsRun(cfg, run) && k + 1 < |run| && AllTell(run[k])
    ensures AllTell(run[k + 1]) <==> !FoldsPeople(run[k], run[k + 1])
  {
    RunStep(cfg, run, k);
    var step :| Enabled(run[k], step) && run[k + 1] == Apply(cfg, run[k], step);
    StepTellsIff(cfg, run[k], step);
  }

  lemma InitTells(cfg: Config, s: State)
    requires Init(cfg, s)
    ensures AllTell(s)
  {
    forall g | 0 <= g < |s.ds| ensures Tells(s, g) {
      SumZero(OnJourney(g, 0), s.ps);
    }
  }

  lemma {:induction false} TellUpTo(cfg: Config, run: seq<State>, n: nat)
    requires IsRun(cfg, run) && n < |run|
    ensures (forall k: nat :: k <= n ==> AllTell(run[k]))
       <==> (forall k: nat :: k < n ==> !FoldsPeople(run[k], run[k + 1]))
  {
    if n == 0 {
      InitTells(cfg, run[0]);
    } else {
      TellUpTo(cfg, run, n - 1);
      if forall k: nat :: k <= n - 1 ==> AllTell(run[k]) {
        TellsAt(cfg, run, n - 1);
      }
    }
  }

  /** The counts tell throughout a run who sits on the buses at the station if and only if the shutdown, if the run
      has one, finds every bus at the station empty: a sum the dispatcher computes in that very region. */
  lemma CountsTellIff(cfg: Config, run: seq<State>)
    requires IsRun(cfg, run)
    ensures (forall k: nat :: k < |run| ==> AllTell(run[k]))
       <==> (forall k: nat :: k + 1 < |run| ==> !FoldsPeople(run[k], run[k + 1]))
  {
    var n := |run| - 1;
    TellUpTo(cfg, run, n);
    assert (forall k: nat :: k < |run| ==> AllTell(run[k])) <==> (forall k: nat :: k <= n ==> AllTell(run[k]));
  }

  // --- capacity ---

  /** No journey of any bus ever took more people than the bus has seats. */
  ghost predicate PeopleFit(cfg: Config, s: State) {
    forall g: nat, v: nat :: g < |s.ds| ==> Riding(s, g, v) <= cfg.seats
  }

  ghost predicate CurrentFit(cfg: Config, s: State) {
    forall g: nat :: g < |s.ds| ==> Riding(s, g, s.ds[g].journey) <= cfg.seats
  }

  /** Past journeys are settled, so a bus takes too many people, if at all, on its current journey. */
  lemma StepFits(cfg: Config, s: State, step: Step)
    requires Inv(cfg, s) && Enabled(s, step) && PeopleFit(cfg, s)
    ensures CurrentFit(cfg, Apply(cfg, s, step)) ==> PeopleFit(cfg, Apply(cfg, s, step))
  {
    var t := Apply(cfg, s, step);
    SameFleet(cfg, s, step);
    if CurrentFit(cfg, t) {
      forall g: nat, v: nat | g < |t.ds| ensures Riding(t, g, v) <= cfg.seats {
        if v != t.ds[g].journey { OthersKeep(cfg, s, step, g); }
      }
    }
  }

  lemma FitsAt(cfg: Config, run: seq<State>, k: nat)
    requires IsRun(cfg, run) && k + 1 < |run| && PeopleFit(cfg, run[k])
    requires CurrentFit(cfg, run[k + 1])
    ensures PeopleFit(cfg, run[k + 1])
  {
    RunStep(cfg, run, k);
    var step :| Enabled(run[k], step) && run[k + 1] == Apply(cfg, run[k], step);
    StepFits(cfg, run[k], step);
  }

  lemma InitFits(cfg: Config, s: State)
    requires Init(cfg, s)
    ensures PeopleFit(cfg, s)
  {
    forall g: nat, v: nat | g < |s.ds| ensures Riding(s, g, v) <= cfg.seats {
      SumZero(OnJourney(g, v), s.ps);
    }
  }

  /** A state whose counts tell the truth respects the capacity in people, as it does in counts. */
  lemma TellingFits(cfg: Config, s: State, g: nat)
    requires Inv(cfg, s) && g < |s.ds| && Tells(s, g)
    ensures Aboard(s, g) + PendingSeats(s.ds[g]) <= cfg.seats
  {
    assert BusOk(cfg, s.shm.buses[g], s.shm.driverPids[g], s.ds[g]);
  }

  lemma {:induction false} FitsWhileTelling(cfg: Config, run: seq<State>, n: nat)
    requires IsRun(cfg, run) && n < |run| && forall k: nat :: k < n ==> !FoldsPeople(run[k], run[k + 1])
    ensures AllTell(run[n]) && PeopleFit(cfg, run[n])
  {
    TellUpTo(cfg, run, n);
    if n == 0 {
      InitFits(cfg, run[0]);
    } else {
      FitsWhileTelling(cfg, run, n - 1);
      forall g: nat | g < |run[n].ds| ensures Riding(run[n], g, run[n].ds[g].journey) <= cfg.seats {
        RunHolds(cfg, run, n);
        assert Tells(run[n], g);
        TellingFits(cfg, run[n], g);
      }
      FitsAt(cfg, run, n - 1);
    }
  }

  lemma RunningBefore(cfg: Config, run: seq<State>, k: nat)
    requires IsRun(cfg, run) && k < |run| && run[k].shm.running
    ensures forall j: nat :: j <= k ==> run[j].shm.running
  {
    forall j: nat | j <= k ensures run[j].shm.running {
      if !run[j].shm.running { OvercountFinal(cfg, run, j, k); }
    }
  }

  /** Before the shutdown no journey of any bus has more people than seats, the party that is approved and not yet
      seated included, and each bus at the station counts its people right. */
  lemma PeopleFitBefore(cfg: Config, run: seq<State>, k: nat, g: nat, v: nat)
    requires IsRun(cfg, run) && k < |run| && run[k].shm.running && g < |run[k].ds|
    ensures g < |run[k].shm.buses|
    ensures Riding(run[k], g, v) + (if v == run[k].ds[g].journey then PendingSeats(run[k].ds[g]) else 0) <= cfg.seats
    ensures Aboard(run[k], g) == Load(run[k], g)
  {
    RunningBefore(cfg, run, k);
    FitsWhileTelling(cfg, run, k);
    RunHolds(cfg, run, k);
    assert Tells(run[k], g);
    TellingFits(cfg, run[k], g);
  }

  /** If the shutdown finds every bus at the station empty, that remains so for the rest of the run. */
  lemma PeopleFitAlways(cfg: Config, run: seq<State>, k: nat)
    requires IsRun(cfg, run) && k < |run|
    requires forall j: nat :: j + 1 < |run| ==> !FoldsPeople(run[j], run[j + 1])
    ensures PeopleFit(cfg, run[k])
  {
    FitsWhileTelling(cfg, run, k);
  }

  // --- bikes: the shutdown does not clear their count ---

  ghost predicate BikesFit(cfg: Config, s: State) {
    forall g: nat, v: nat :: g < |s.ds| ==> RidingBikes(s, g, v) <= cfg.bikes
  }

  lemma CurrentBikesFit(cfg: Config, s: State, g: nat)
    requires Inv(cfg, s) && g < |s.ds|
    ensures RidingBikes(s, g, s.ds[g].journey) <= cfg.bikes
  {
    assert BusOk(cfg, s.shm.buses[g], s.shm.driverPids[g], s.ds[g]);
    assert BikesAtStation(s.shm.buses[g]) == RidingBikes(s, g, s.ds[g].journey);
  }

  lemma StepFitsBikes(cfg: Config, s: State, step: Step)
    requires Inv(cfg, s) && Enabled(s, step) && BikesFit(cfg, s)
    ensures BikesFit(cfg, Apply(cfg, s, step))
  {
    var t := Apply(cfg, s, step);
    SameFleet(cfg, s, step);
    StepKeeps(cfg, s, step);
    forall g: nat, v: nat | g < |t.ds| ensures RidingBikes(t, g, v) <= cfg.bikes {
      if v == t.ds[g].journey { CurrentBikesFit(cfg, t, g); } else { OthersKeep(cfg, s, step, g); }
    }
  }

  lemma BikesFitAt(cfg: Config, run: seq<State>, k: nat)
    requires IsRun(cfg, run) && k + 1 < |run| && BikesFit(cfg, run[k])
    ensures BikesFit(cfg, run[k + 1])
  {
    RunStep(cfg, run, k);
    var step :| Enabled(run[k], step) && run[k + 1] == Apply(cfg, run[k], step);
    StepFitsBikes(cfg, run[k], step);
  }

  /** No journey of any bus ever takes more bikes than the bus has places, after the shutdown either. */
  lemma {:induction false} BikesFitAlways(cfg: Config, run: seq<State>, k: nat)
    requires IsRun(cfg, run) && k < |run|
    ensures BikesFit(cfg, run[k])
  {
    if k == 0 {
      forall g: nat, v: nat | g < |run[0].ds| ensures RidingBikes(run[0], g, v) <= cfg.bikes {
        SumZero(BikeOnJourney(g, v), run[0].ps);
      }
    } else {
      BikesFitAlways(cfg, run, k - 1);
      BikesFitAt(cfg, run, k - 1);
    }
  }

  // --- capacity after a shutdown that finds people at the station ---

  /** After a shutdown at e: until bus g departs, those the shutdown took off its count are still aboard, on top of
      those counted since; once it has departed its count is right again. */
  predicate CountsFrom(s: State, t: State, g: nat) {
    && g < |s.ds| && g < |s.shm.buses| && g < |t.ds| && g < |t.shm.buses| && s.ds[g].journey <= t.ds[g].journey
    && Aboard(t, g) == Load(t, g) + (if t.ds[g].journey == s.ds[g].journey then Load(s, g) else 0)
  }

  lemma StopCounts(cfg: Config, s: State, step: Step, g: nat)
    requires Inv(cfg, s) && Enabled(s, step) && g < |s.ds| && Tells(s, g)
    requires s.shm.running && !Apply(cfg, s, step).shm.running
    ensures CountsFrom(s, Apply(cfg, s, step), g)
  {
    OnlyShutdownStops(cfg, s, step);
    ShutdownAtBus(cfg, s, g);
  }

  lemma LaterCounts(cfg: Config, r: State, s: State, step: Step, g: nat)
    requires Inv(cfg, s) && Enabled(s, step) && !s.shm.running && CountsFrom(r, s, g)
    ensures CountsFrom(r, Apply(cfg, s, step), g)
  {
    assert step != ShutDown;
    StepFollowsBus(cfg, s, step, g);
    NobodyAhead(cfg, s, g, s.ds[g].journey + 1);
  }

  lemma StopCountsAt(cfg: Config, run: seq<State>, e: nat, g: nat)
    requires IsRun(cfg, run) && e + 1 < |run| && run[e].shm.running && !run[e + 1].shm.running
    requires g < |run[e].ds| && Tells(run[e], g)
    ensures CountsFrom(run[e], run[e + 1], g)
  {
    RunStep(cfg, run, e);
    var step :| Enabled(run[e], step) && run[e + 1] == Apply(cfg, run[e], step);
    StopCounts(cfg, run[e], step, g);
  }

  lemma LaterCountsAt(cfg: Config, run: seq<State>, r: State, k: nat, g: nat)
    requires IsRun(cfg, run) && k + 1 < |run| && !run[k].shm.running && CountsFrom(r, run[k], g)
    ensures CountsFrom(r, run[k + 1], g)
  {
    RunStep(cfg, run, k);
    var step :| Enabled(run[k], step) && run[k + 1] == Apply(cfg, run[k], step);
    LaterCounts(cfg, r, run[k], step, g);
  }

  lemma {:induction false} CountsAfterShutdown(cfg: Config, run: seq<State>, e: nat, k: nat, g: nat)
    requires IsRun(cfg, run) && e < k < |run| && run[e].shm.running && !run[e + 1].shm.running && g < |run[e].ds|
    ensures CountsFrom(run[e], run[k], g)
    decreases k - e
  {
    if k == e + 1 {
      PeopleFitBefore(cfg, run, e, g, 0);
      StopCountsAt(cfg, run, e, g);
    } else {
      CountsAfterShutdown(cfg, run, e, k - 1, g);
      OvercountFinal(cfg, run, e + 1, k - 1);
      LaterCountsAt(cfg, run, run[e], k - 1, g);
    }
  }

  /** The count that the shutdown at e cleared and the count since fit together into bus g, if it is still there. */
  predicate FitsTogether(cfg: Config, s: State, t: State, g: nat) {
    g < |s.ds| && g < |s.shm.buses| && g < |t.ds| && g < |t.shm.buses| && t.ds[g].journey == s.ds[g].journey ==>
      Load(s, g) + Load(t, g) <= cfg.seats
  }

  lemma {:induction false} FitsUpTo(cfg: Config, run: seq<State>, n: nat)
    requires IsRun(cfg, run) && n < |run|
    requires forall e: nat, k: nat, g: nat :: e < k <= n && StopsAt(run, e) ==> FitsTogether(cfg, run[e], run[k], g)
    ensures PeopleFit(cfg, run[n])
  {
    if n == 0 {
      InitFits(cfg, run[0]);
    } else {
      FitsUpTo(cfg, run, n - 1);
      forall g: nat | g < |run[n].ds| ensures Riding(run[n], g, run[n].ds[g].journey) <= cfg.seats {
        AboardFits(cfg, run, n, g);
      }
      FitsAt(cfg, run, n - 1);
    }
  }

  lemma AboardFits(cfg: Config, run: seq<State>, n: nat, g: nat)
    requires IsRun(cfg, run) && n < |run| && g < |run[n].ds|
    requires forall e: nat, k: nat, h: nat :: e < k <= n && StopsAt(run, e) ==> FitsTogether(cfg, run[e], run[k], h)
    ensures Aboard(run[n], g) <= cfg.seats
  {
    RunHolds(cfg, run, n);
    assert BusOk(cfg, run[n].shm.buses[g], run[n].shm.driverPids[g], run[n].ds[g]);
    if run[n].shm.running {
      PeopleFitBefore(cfg, run, n, g, run[n].ds[g].journey);
    } else {
      var e := StopBefore(cfg, run, n);
      FleetSize(cfg, run, e, n);
      CountsAfterShutdown(cfg, run, e, n, g);
      assert FitsTogether(cfg, run[e], run[n], g);
    }
  }

  lemma FleetAt(cfg: Config, run: seq<State>, k: nat)
    requires IsRun(cfg, run) && k + 1 < |run|
    ensures |run[k + 1].ds| == |run[k].ds|
  {
    RunStep(cfg, run, k);
    var step :| Enabled(run[k], step) && run[k + 1] == Apply(cfg, run[k], step);
    SameFleet(cfg, run[k], step);
  }

  lemma {:induction false} FleetSize(cfg: Config, run: seq<State>, a: nat, b: nat)
    requires IsRun(cfg, run) && a <= b < |run|
    ensures |run[b].ds| == |run[a].ds|
    decreases b - a
  {
    if a < b {
      FleetSize(cfg, run, a, b - 1);
      FleetAt(cfg, run, b - 1);
    }
  }

  /** No journey in a run ever has more people than seats if and only if, on each bus that has not left since the
      shutdown, the count that the shutdown cleared and the count since never exceed the seats together: the room that
      can_board would have to look at, were the count not cleared. */
  lemma PeopleFitIff(cfg: Config, run: seq<State>)
    requires IsRun(cfg, run)
    ensures (forall k: nat :: k < |run| ==> PeopleFit(cfg, run[k]))
       <==> (forall e: nat, k: nat, g: nat :: e < k < |run| && StopsAt(run, e) ==>
                FitsTogether(cfg, run[e], run[k], g))
  {
    if forall k: nat :: k < |run| ==> PeopleFit(cfg, run[k]) {
      forall e: nat, k: nat, g: nat | e < k < |run| && StopsAt(run, e) ensures FitsTogether(cfg, run[e], run[k], g) {
        if g < |run[e].ds| && g < |run[k].ds| && run[k].ds[g].journey == run[e].ds[g].journey {
          CountsAfterShutdown(cfg, run, e, k, g);
          assert Riding(run[k], g, run[k].ds[g].journey) <= cfg.seats;
        }
      }
    }
    if forall e: nat, k: nat, g: nat :: e < k < |run| && StopsAt(run, e) ==> FitsTogether(cfg, run[e], run[k], g) {
      forall k: nat | k < |run| ensures PeopleFit(cfg, run[k]) {
        FitsUpTo(cfg, run, k);
      }
    }
  }
}
