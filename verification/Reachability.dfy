/** The global invariant holds initially, survives every step, and so holds throughout every run. */
module Reachability {
  import opened Sequences
  import opened Channels
  import opened Domain
  import opened SharedRecord
  import opened Protocol
  import opened Invariants
  import PartySteps
  import DriverSteps
  import OfficeSteps
  import DispatcherSteps

  lemma InitialLedgers(cfg: Config, s: State)
    requires Init(cfg, s)
    ensures Ledgers(s.shm, s.ps)
  {
    SumZero(CreatedSeats, s.ps);
    SumZero(CreatedAdults, s.ps);
    SumZero(CreatedChildren, s.ps);
    SumZero(CreatedVip, s.ps);
    SumZero(InOffice, s.ps);
    SumZero(IssuedTickets, s.ps);
    SumZero(SoldSeats, s.ps);
    SumZero(DeniedTickets, s.ps);
    SumZero(WaitingSeats, s.ps);
    SumZero(LeftSeats, s.ps);
    SumZero(RodeSeats, s.ps);
    SumZero(RodeVipSeats, s.ps);
  }

  lemma InitialFlows(cfg: Config, s: State)
    requires Init(cfg, s)
    ensures EntryFlow(s.entry, s.entryWoken, s.ps)
    ensures TicketFlow(cfg, s.ticketSlots, s.ticketsWoken, s.ps, s.os, s.ticketQ)
    ensures BoardingFlow(cfg, s.boardSlots, s.ps, s.ds, s.boardQ, s.boardR)
    ensures DoorFlow(s.passengerDoor, s.bikeDoor, s.ds)
  {
    SumZero(AtEntryLock, s.ps);
    SumZero(ReservedTicketSlot, s.ps);
    SumZero(HoldsBoardSlot, s.ps);
    SumZero(AwaitsBoarding, s.ps);
    SumZero(SlotOwed, s.os);
    SumZero(InService, s.ds);
    SumZero(InPassengerDoor, s.ds);
    SumZero(InBikeDoor, s.ds);
  }

  lemma NoMessages(cfg: Config, s: State)
    requires Init(cfg, s)
    ensures BoardingChannel(s.ps, s.ds, s.boardQ, s.boardR)
    ensures TicketChannel(s.ps, s.os, s.ticketQ, s.ticketR)
  {
    forall i | 0 <= i < |s.ps|
      ensures MatchedAt(WaitsToBoard, s.ps, BoardingRequestPid, s.boardQ, Serving, s.ds,
                        BoardingResponseKey, s.boardR, i)
    {
      CountIff(Serving, s.ds, i + 1);
    }
    forall i | 0 <= i < |s.ps|
      ensures MatchedAt(WaitsForTicket, s.ps, TicketRequestPid, s.ticketQ, Selling, s.os,
                        TicketResponseKey, s.ticketR, i)
    {
      CountIff(Selling, s.os, i + 1);
    }
  }

  lemma InitialBuses(cfg: Config, s: State)
    requires Init(cfg, s)
    ensures BusesOk(cfg, s.shm.buses, s.shm.driverPids, s.ds)
    ensures Sum(LoadAtStation, s.shm.buses) == 0
    ensures Manifest(s.ps, s.shm.buses, s.ds) && BikeManifest(s.ps, s.shm.buses, s.ds) && RidesPast(s.ps, s.ds)
  {
    SumZero(LoadAtStation, s.shm.buses);
    forall g | 0 <= g < |s.ds|
      ensures Sum(OnTrip(g, s.ds[g].trip), s.ps) == 0 && Sum(BikeOnJourney(g, s.ds[g].journey), s.ps) == 0
    {
      SumZero(OnTrip(g, s.ds[g].trip), s.ps);
      SumZero(BikeOnJourney(g, s.ds[g].journey), s.ps);
    }
  }

  lemma InitHolds(cfg: Config, s: State)
    requires Init(cfg, s)
    ensures Inv(cfg, s)
  {
    InitialLedgers(cfg, s);
    InitialFlows(cfg, s);
    NoMessages(cfg, s);
    InitialBuses(cfg, s);
  }

  predicate IsProcessMove(step: Step) { step.PartyMove? || step.DriverMove? || step.OfficeMove? }

  lemma ProcessKeeps(cfg: Config, s: State, step: Step)
    requires Inv(cfg, s) && Enabled(s, step) && IsProcessMove(step)
    ensures Inv(cfg, Apply(cfg, s, step))
  {
    match step
    case PartyMove(i, childFails) => PartySteps.PartyKeeps(cfg, s, i, childFails);
    case DriverMove(g, due) => DriverSteps.DriverKeeps(cfg, s, g, due);
    case OfficeMove(k) => OfficeSteps.OfficeKeeps(cfg, s, k);
  }

  lemma FaultKeeps(cfg: Config, s: State, step: Step)
    requires Inv(cfg, s) && Enabled(s, step) && (step.DriverCrash? || step.EarlySignal?)
    ensures Inv(cfg, Apply(cfg, s, step))
  {
    match step
    case DriverCrash(g) => DriverSteps.FlagKeeps(cfg, s, g, s.ds[g].(crashed := true));
    case EarlySignal(g) => DriverSteps.FlagKeeps(cfg, s, g, s.ds[g].(early := true));
  }

  lemma EnvironmentKeeps(cfg: Config, s: State, step: Step)
    requires Inv(cfg, s) && Enabled(s, step) && !IsProcessMove(step)
    ensures Inv(cfg, Apply(cfg, s, step))
  {
    if step.DriverCrash? || step.EarlySignal? {
      FaultKeeps(cfg, s, step);
    } else if step.ClosingSignal? {
      DispatcherSteps.CloseKeeps(cfg, s);
    } else if step.WakeEntryQueue? || step.WakeTicketQueue? {
      DispatcherSteps.WakeKeeps(cfg, s, step);
    } else if step.WatchdogRound? {
      DispatcherSteps.WatchdogKeeps(cfg, s, step.dead);
    } else if step.ShutDown? {
      DispatcherSteps.ShutdownKeeps(cfg, s);
    } else {
      DispatcherSteps.SignalKeeps(cfg, s, step);
    }
  }

  lemma StepKeeps(cfg: Config, s: State, step: Step)
    requires Inv(cfg, s) && Enabled(s, step)
    ensures Inv(cfg, Apply(cfg, s, step))
  {
    if IsProcessMove(step) { ProcessKeeps(cfg, s, step); } else { EnvironmentKeeps(cfg, s, step); }
  }

  lemma NextKeeps(cfg: Config, s: State, t: State)
    requires Inv(cfg, s)
    ensures Next(cfg, s, t) ==> Inv(cfg, t)
  {
    if Next(cfg, s, t) {
      var step :| Enabled(s, step) && t == Apply(cfg, s, step);
      StepKeeps(cfg, s, step);
    }
  }

  lemma KeepsAt(cfg: Config, run: seq<State>, k: nat)
    requires IsRun(cfg, run) && k + 1 < |run| && Inv(cfg, run[k])
    ensures Inv(cfg, run[k + 1])
  {
    assert StepAt(cfg, run, k);
    NextKeeps(cfg, run[k], run[k + 1]);
  }

  /** Every state of every run satisfies the global invariant. */
  lemma {:induction false} RunHolds(cfg: Config, run: seq<State>, k: nat)
    requires IsRun(cfg, run) && k < |run|
    ensures Inv(cfg, run[k])
  {
    if k == 0 {
      InitHolds(cfg, run[0]);
    } else {
      RunHolds(cfg, run, k - 1);
      KeepsAt(cfg, run, k - 1);
    }
  }

  /** Each position of a run but the last is a state within the invariant, followed by a step. */
  lemma RunStep(cfg: Config, run: seq<State>, k: nat)
    requires IsRun(cfg, run) && k + 1 < |run|
    ensures Inv(cfg, run[k]) && Next(cfg, run[k], run[k + 1])
  {
    RunHolds(cfg, run, k);
    assert StepAt(cfg, run, k);
  }
}
