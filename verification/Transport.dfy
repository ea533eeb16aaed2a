/** What the buses do with people: capacity behind the open door, each boarded party carried exactly once,
    and what the shutdown does to the account. */
module Transport {
  import opened Sequences
  import opened Domain
  import opened SharedRecord
  import opened Protocol
  import opened Invariants
  import opened Reachability
  import opened Frames
  import opened Conservation
  import DispatcherSteps

  // --- capacity ---

  /** The counts of a bus never exceed its capacities, not even with the party that is admitted and not yet seated,
      although the check and the update are separate regions; one party at most is in that window, none when the bus
      leaves. Whom the counts count is the subject of Capacity. */
  lemma CapacityHolds(cfg: Config, run: seq<State>, k: nat, g: nat)
    requires IsRun(cfg, run) && k < |run| && g < |run[k].ds|
    ensures Dimensions(run[k])
    ensures var b := run[k].shm.buses[g]; var d := run[k].ds[g];
            && 0 <= b.passengerCount && b.passengerCount + PendingSeats(d) <= cfg.seats
            && 0 <= b.bikeCount && b.bikeCount + PendingBikes(d) <= cfg.bikes
            && b.enteringCount == (if d.pc.AwaitDoor? || d.pc.AtDoor? then 1 else 0)
            && (d.pc.Leave? || !b.atStation ==> b.enteringCount == 0)
            && (d.pc.AwaitDoor? || d.pc.AtDoor? ==> b.atStation)
  {
    RunHolds(cfg, run, k);
    assert BusOk(cfg, run[k].shm.buses[g], run[k].shm.driverPids[g], run[k].ds[g]);
  }

  /** Each of the two doors holds at most one party, over all buses together. */
  lemma DoorsExclusive(cfg: Config, run: seq<State>, k: nat, g: nat, h: nat, bike: bool)
    requires IsRun(cfg, run) && k < |run| && g < h < |run[k].ds|
    ensures !(InDoor(run[k].ds[g], bike) && InDoor(run[k].ds[h], bike))
  {
    RunHolds(cfg, run, k);
    var ds := run[k].ds;
    if InDoor(ds[g], bike) && InDoor(ds[h], bike) {
      if bike { SumTwoOnes(InBikeDoor, ds, g, h); } else { SumTwoOnes(InPassengerDoor, ds, g, h); }
    }
  }

  // --- every boarded party is carried exactly once ---

  /** It sits on a bus at the station, or its trip has been credited. */
  predicate Aboard(p: Party, ds: seq<Driver>) {
    Rode(p) && p.rides[0].bus < |ds| && p.rides[0].trip == ds[p.rides[0].bus].trip
  }

  function CarriedSeats(ds: seq<Driver>): Party -> int {
    (p: Party) => When(Rode(p) && !Aboard(p, ds), p.info.seatCount)
  }

  function AboardSeats(ds: seq<Driver>, n: nat): Party -> int {
    (p: Party) => When(Aboard(p, ds) && p.rides[0].bus < n, p.info.seatCount)
  }

  lemma {:induction false} SumLast<T>(w: T -> int, s: seq<T>)
    requires |s| > 0
    ensures Sum(w, s) == Sum(w, s[..|s| - 1]) + w(s[|s| - 1])
  {
    if |s| > 1 {
      assert s[1..][..|s| - 2] == s[..|s| - 1][1..];
      SumLast(w, s[1..]);
    }
  }

  /** Counting people bus by bus and counting them party by party gives the same number. */
  lemma {:induction false} AboardByBus(ps: seq<Party>, buses: seq<Bus>, ds: seq<Driver>, n: nat)
    requires n <= |ds| && Manifest(ps, buses, ds)
    ensures Sum(AboardSeats(ds, n), ps) == Sum(LoadAtStation, buses[..n])
  {
    if n == 0 {
      SumZero(AboardSeats(ds, 0), ps);
    } else {
      var g := n - 1;
      AboardByBus(ps, buses, ds, g);
      SumSplit(AboardSeats(ds, n), AboardSeats(ds, g), OnTrip(g, ds[g].trip), ps);
      assert buses[..n][..g] == buses[..g];
      SumLast(LoadAtStation, buses[..n]);
    }
  }

  /** The people transported are the parties whose load has been credited, by their bus's departure or by the shutdown,
      each counted once; the count of a bus at the station is the parties that boarded it since. */
  lemma CarriedExactlyOnce(cfg: Config, run: seq<State>, k: nat)
    requires IsRun(cfg, run) && k < |run|
    ensures var s := run[k];
            && Dimensions(s)
            && s.shm.transported == Sum(CarriedSeats(s.ds), s.ps) + s.overcount
            && (s.shm.running ==> s.overcount == 0)
            && (forall i :: 0 <= i < |s.ps| ==> |s.ps[i].rides| <= 1)
            && (forall g :: 0 <= g < |s.ds| ==>
                  LoadAtStation(s.shm.buses[g]) == Sum(OnTrip(g, s.ds[g].trip), s.ps))
  {
    RunHolds(cfg, run, k);
    var s := run[k];
    forall i | 0 <= i < |s.ps| ensures |s.ps[i].rides| <= 1 {
      assert PartyOk(s.ps[i], i, s.shm.stationOpen, s.shm.running);
    }
    assert s.shm.buses[..|s.ds|] == s.shm.buses;
    AboardByBus(s.ps, s.shm.buses, s.ds, |s.ds|);
    SumSplit(RodeSeats, CarriedSeats(s.ds), AboardSeats(s.ds, |s.ds|), s.ps);
  }

  /** Boarded people are transported people plus those on buses at the station. */
  lemma BoardedBalance(cfg: Config, run: seq<State>, k: nat)
    requires IsRun(cfg, run) && k < |run| && run[k].shm.running
    ensures run[k].shm.boarded == run[k].shm.transported + AtStation(run[k])
  {
    RunHolds(cfg, run, k);
  }

  /** Bikes on a bus at the station belong to the parties on its current journey, after the shutdown too. */
  lemma BikesAreAccounted(cfg: Config, run: seq<State>, k: nat, g: nat)
    requires IsRun(cfg, run) && k < |run| && g < |run[k].ds|
    ensures Dimensions(run[k])
    ensures BikesAtStation(run[k].shm.buses[g]) == Sum(BikeOnJourney(g, run[k].ds[g].journey), run[k].ps)
  {
    RunHolds(cfg, run, k);
  }

  // --- a load is frozen from departure to return ---

  predicate SameLoad(s: State, t: State, g: nat) {
    && g < |s.shm.buses| && g < |t.shm.buses|
    && t.shm.buses[g].passengerCount == s.shm.buses[g].passengerCount
    && t.shm.buses[g].bikeCount == s.shm.buses[g].bikeCount
  }

  lemma AwayStep(cfg: Config, s: State, step: Step, g: nat)
    requires Inv(cfg, s) && Enabled(s, step) && g < |s.ds| && s.ds[g].pc.Travelling?
    requires var t := Apply(cfg, s, step); g < |t.ds| && t.ds[g].pc.Travelling? && t.shm.running
    ensures SameLoad(s, Apply(cfg, s, step), g)
  {
    if step.ShutDown? {
      ShutdownFrame(cfg, s);
    } else if !(step.DriverMove? && step.g == g) {
      BusFrame(cfg, s, step, g);
    }
  }

  lemma AwayAt(cfg: Config, run: seq<State>, k: nat, g: nat)
    requires IsRun(cfg, run) && k + 1 < |run| && g < |run[k].ds| && g < |run[k + 1].ds| && run[k + 1].shm.running
    requires run[k].ds[g].pc.Travelling? && run[k + 1].ds[g].pc.Travelling?
    ensures SameLoad(run[k], run[k + 1], g)
  {
    RunStep(cfg, run, k);
    var step :| Enabled(run[k], step) && run[k + 1] == Apply(cfg, run[k], step);
    AwayStep(cfg, run[k], step, g);
  }

  /** While a bus is away nobody changes its load: what the return clears is what the departure credited. */
  lemma {:induction false} LoadFrozen(cfg: Config, run: seq<State>, a: nat, b: nat, g: nat)
    requires IsRun(cfg, run) && a <= b < |run|
    requires forall k :: a <= k <= b ==> g < |run[k].ds| && run[k].ds[g].pc.Travelling? && run[k].shm.running
    ensures SameLoad(run[a], run[b], g)
    decreases b - a
  {
    if a < b {
      LoadFrozen(cfg, run, a, b - 1, g);
      AwayAt(cfg, run, b - 1, g);
    } else {
      RunHolds(cfg, run, a);
    }
  }

  /** A bus leaves by its own driver's step, which credits its load and keeps it on the bus. */
  lemma LeaveStep(cfg: Config, s: State, step: Step, g: nat)
    requires Inv(cfg, s) && Enabled(s, step) && g < |s.ds| && s.ds[g].pc.Leave?
    requires var t := Apply(cfg, s, step); g < |t.ds| && t.ds[g].pc.Travelling?
    ensures var t := Apply(cfg, s, step);
            && SameLoad(s, t, g) && t.shm.transported == s.shm.transported + s.shm.buses[g].passengerCount
  {
    if step.ShutDown? {
      ShutdownFrame(cfg, s);
    } else if !(step.DriverMove? && step.g == g) {
      BusFrame(cfg, s, step, g);
    }
  }

  lemma LeaveAt(cfg: Config, run: seq<State>, e: nat, g: nat)
    requires IsRun(cfg, run) && e + 1 < |run| && g < |run[e].ds| && g < |run[e + 1].ds|
    requires run[e].ds[g].pc.Leave? && run[e + 1].ds[g].pc.Travelling?
    ensures SameLoad(run[e], run[e + 1], g)
    ensures run[e + 1].shm.transported == run[e].shm.transported + run[e].shm.buses[g].passengerCount
  {
    RunStep(cfg, run, e);
    var step :| Enabled(run[e], step) && run[e + 1] == Apply(cfg, run[e], step);
    LeaveStep(cfg, run[e], step, g);
  }

  lemma ReturnClears(cfg: Config, s: State, g: nat, due: bool)
    requires Dimensions(s) && g < |s.ds| && DriverEnabled(s, g) && s.ds[g].pc.Travelling?
    ensures var t := DriverStep(cfg, s, g, due);
            && |t.shm.buses| == |s.shm.buses| && t.shm.buses[g].passengerCount == t.shm.buses[g].bikeCount == 0
            && t.shm.transported == s.shm.transported
  {
  }

  /** A bus comes back by its own driver's step, which clears it and credits nothing. */
  lemma ReturnsEmpty(cfg: Config, s: State, step: Step, g: nat)
    requires Inv(cfg, s) && Enabled(s, step) && g < |s.ds| && s.ds[g].pc.Travelling?
    requires var t := Apply(cfg, s, step); g < |t.ds| && !t.ds[g].pc.Travelling?
    ensures var t := Apply(cfg, s, step);
            && g < |t.shm.buses| && t.shm.buses[g].passengerCount == 0 && t.shm.buses[g].bikeCount == 0
            && t.shm.transported == s.shm.transported
  {
    if step.ShutDown? {
      ShutdownFrame(cfg, s);
    } else if !(step.DriverMove? && step.g == g) {
      BusFrame(cfg, s, step, g);
    } else {
      ReturnClears(cfg, s, g, step.due);
    }
  }

  lemma ReturnAt(cfg: Config, run: seq<State>, f: nat, g: nat)
    requires IsRun(cfg, run) && f + 1 < |run| && g < |run[f].ds| && g < |run[f + 1].ds|
    requires run[f].ds[g].pc.Travelling? && !run[f + 1].ds[g].pc.Travelling?
    ensures g < |run[f + 1].shm.buses| && run[f + 1].shm.buses[g].passengerCount == 0
    ensures run[f + 1].shm.transported == run[f].shm.transported
  {
    RunStep(cfg, run, f);
    var step :| Enabled(run[f], step) && run[f + 1] == Apply(cfg, run[f], step);
    ReturnsEmpty(cfg, run[f], step, g);
  }

  /** A journey that leaves at e and comes back at f: the load that the return clears is, person for person, the
      load that the departure credited, whatever happened in between short of the shutdown. */
  lemma ClearedIsCredited(cfg: Config, run: seq<State>, e: nat, f: nat, g: nat)
    requires IsRun(cfg, run) && e < f && f + 1 < |run|
    requires forall k :: e <= k <= f + 1 ==> g < |run[k].ds|
    requires run[e].ds[g].pc.Leave? && !run[f + 1].ds[g].pc.Travelling?
    requires forall k :: e < k <= f ==> run[k].ds[g].pc.Travelling? && run[k].shm.running
    ensures g < |run[f].shm.buses| && g < |run[f + 1].shm.buses|
    ensures run[e + 1].shm.transported - run[e].shm.transported
         == run[f].shm.buses[g].passengerCount - run[f + 1].shm.buses[g].passengerCount
    ensures run[f + 1].shm.buses[g].passengerCount == 0 && run[f + 1].shm.transported == run[f].shm.transported
  {
    LeaveAt(cfg, run, e, g);
    LoadFrozen(cfg, run, e + 1, f, g);
    ReturnAt(cfg, run, f, g);
  }

  // --- shutdown ---

  /** The reconciliation credits everyone on a bus, the people on travelling buses for a second time. */
  lemma ShutdownAccount(cfg: Config, s: State)
    requires Inv(cfg, s) && Enabled(s, ShutDown)
    ensures var t := Apply(cfg, s, ShutDown);
            && t.shm.transported == s.shm.transported + AtStation(s) + OffStation(s)
            && t.overcount == OffStation(s) >= 0
            && Sum(OnBus, t.shm.buses) == 0
            && t.shm.transported == t.shm.boarded + OffStation(s)
  {
    DispatcherSteps.FoldSplits(s.shm.buses);
    var t := Apply(cfg, s, ShutDown);
    forall g | 0 <= g < |t.shm.buses| ensures OnBus(t.shm.buses[g]) == 0 {
      assert BusOk(cfg, s.shm.buses[g], s.shm.driverPids[g], s.ds[g]);
    }
    SumZero(OnBus, t.shm.buses);
  }

  /** The shutdown happens once: afterwards nothing changes the double credit. */
  lemma OvercountStep(cfg: Config, s: State, step: Step)
    requires Inv(cfg, s) && Enabled(s, step) && !s.shm.running
    ensures !Apply(cfg, s, step).shm.running && Apply(cfg, s, step).overcount == s.overcount
  {
    if step.PartyMove? || step.DriverMove? || step.OfficeMove? {
      ProcessFlags(cfg, s, step);
    }
  }

  lemma OvercountAt(cfg: Config, run: seq<State>, k: nat)
    requires IsRun(cfg, run) && k + 1 < |run| && !run[k].shm.running
    ensures !run[k + 1].shm.running && run[k + 1].overcount == run[k].overcount
  {
    RunStep(cfg, run, k);
    var step :| Enabled(run[k], step) && run[k + 1] == Apply(cfg, run[k], step);
    OvercountStep(cfg, run[k], step);
  }

  lemma {:induction false} OvercountFinal(cfg: Config, run: seq<State>, a: nat, b: nat)
    requires IsRun(cfg, run) && a <= b < |run| && !run[a].shm.running
    ensures !run[b].shm.running && run[b].overcount == run[a].overcount
    decreases b - a
  {
    if a < b {
      OvercountFinal(cfg, run, a, b - 1);
      OvercountAt(cfg, run, b - 1);
    }
  }

  /** Shutdown reconciliation: from the shutdown on, through boardings in progress and final departures,
      `transported` exceeds boarded-less-those-at-the-station by exactly the load that was away at the shutdown;
      so the account holds afterwards if and only if every bus away was empty. */
  lemma ReconciliationIff(cfg: Config, run: seq<State>, e: nat, b: nat)
    requires IsRun(cfg, run) && e < b < |run| && run[e].shm.running && !run[e + 1].shm.running
    ensures run[b].shm.transported + AtStation(run[b]) == run[b].shm.boarded + OffStation(run[e])
    ensures run[b].shm.transported + AtStation(run[b]) == run[b].shm.boarded
       <==> forall g :: 0 <= g < |run[e].shm.buses| ==> LoadTravelling(run[e].shm.buses[g]) == 0
  {
    ShutdownAt(cfg, run, e);
    OvercountFinal(cfg, run, e + 1, b);
    RunHolds(cfg, run, b);
    NobodyAway(cfg, run, e);
  }

  lemma OnlyShutdownStops(cfg: Config, s: State, step: Step)
    requires Inv(cfg, s) && Enabled(s, step) && s.shm.running
    ensures !Apply(cfg, s, step).shm.running ==> step == ShutDown
  {
    if step.PartyMove? || step.DriverMove? || step.OfficeMove? {
      ProcessFlags(cfg, s, step);
    }
  }

  lemma ShutdownAt(cfg: Config, run: seq<State>, e: nat)
    requires IsRun(cfg, run) && e + 1 < |run| && run[e].shm.running && !run[e + 1].shm.running
    ensures run[e + 1].overcount == OffStation(run[e])
  {
    RunStep(cfg, run, e);
    var step :| Enabled(run[e], step) && run[e + 1] == Apply(cfg, run[e], step);
    OnlyShutdownStops(cfg, run[e], step);
    ShutdownAccount(cfg, run[e]);
  }

  lemma NobodyAway(cfg: Config, run: seq<State>, e: nat)
    requires IsRun(cfg, run) && e < |run|
    ensures OffStation(run[e]) == 0
       <==> forall g :: 0 <= g < |run[e].shm.buses| ==> LoadTravelling(run[e].shm.buses[g]) == 0
  {
    var s := run[e];
    RunHolds(cfg, run, e);
    forall g | 0 <= g < |s.shm.buses| ensures LoadTravelling(s.shm.buses[g]) >= 0 {
      assert BusOk(cfg, s.shm.buses[g], s.shm.driverPids[g], s.ds[g]);
    }
    if OffStation(s) == 0 {
      SumZeroAll(LoadTravelling, s.shm.buses);
    } else if forall g :: 0 <= g < |s.shm.buses| ==> LoadTravelling(s.shm.buses[g]) == 0 {
      SumZero(LoadTravelling, s.shm.buses);
    }
  }

  predicate StopsAt(run: seq<State>, e: nat) {
    e + 1 < |run| && run[e].shm.running && !run[e + 1].shm.running
  }

  lemma {:induction false} StopBefore(cfg: Config, run: seq<State>, k: nat) returns (e: nat)
    requires IsRun(cfg, run) && k < |run| && !run[k].shm.running
    ensures e < k && StopsAt(run, e)
  {
    assert Init(cfg, run[0]) && k > 0;
    if run[k - 1].shm.running {
      e := k - 1;
    } else {
      e := StopBefore(cfg, run, k - 1);
    }
  }

  lemma OffStationNotNegative(cfg: Config, run: seq<State>, k: nat)
    requires IsRun(cfg, run) && k < |run|
    ensures OffStation(run[k]) >= 0
  {
    var s := run[k];
    RunHolds(cfg, run, k);
    forall g | 0 <= g < |s.shm.buses| ensures LoadTravelling(s.shm.buses[g]) >= 0 {
      assert BusOk(cfg, s.shm.buses[g], s.shm.driverPids[g], s.ds[g]);
    }
    SumNonNegative(LoadTravelling, s.shm.buses);
  }

  lemma OvercountNotNegative(cfg: Config, run: seq<State>, k: nat)
    requires IsRun(cfg, run) && k < |run|
    ensures run[k].overcount >= 0
  {
    RunHolds(cfg, run, k);
    if !run[k].shm.running {
      var e := StopBefore(cfg, run, k);
      ShutdownAt(cfg, run, e);
      OffStationNotNegative(cfg, run, e);
      OvercountFinal(cfg, run, e + 1, k);
    }
  }

  // --- when main's drain test can be trusted ---

  /** A passing test means that everyone counted has been carried or has left if and only if nobody is counted twice;
      before the shutdown, if and only if every bus away is empty, which main could read in the same region. */
  lemma DrainTestTrustedIff(cfg: Config, run: seq<State>, k: nat)
    requires IsRun(cfg, run) && k < |run| && DrainComplete(run[k].shm)
    ensures Settled(run[k].ps) <==>
              run[k].overcount == 0
              && forall g :: 0 <= g < |run[k].shm.buses| ==> LoadTravelling(run[k].shm.buses[g]) == 0
    ensures run[k].shm.running ==>
              (Settled(run[k].ps) <==>
                 forall g :: 0 <= g < |run[k].shm.buses| ==>
                   run[k].shm.buses[g].atStation || run[k].shm.buses[g].passengerCount == 0)
  {
    var s := run[k];
    RunHolds(cfg, run, k);
    DrainCompleteIff(cfg, run, k);
    SettledIff(s.ps, s.shm.stationOpen, s.shm.running);
    OffStationNotNegative(cfg, run, k);
    OvercountNotNegative(cfg, run, k);
    NobodyAway(cfg, run, k);
    assert forall g :: 0 <= g < |s.shm.buses| ==>
             (LoadTravelling(s.shm.buses[g]) == 0 <==> s.shm.buses[g].atStation || s.shm.buses[g].passengerCount == 0);
  }
}
