/** What the steps of reachable states leave alone. */
module Frames {
  import opened Domain
  import opened SharedRecord
  import opened Protocol
  import opened Invariants
  import opened Parts
  import PartySteps
  import DriverSteps
  import OfficeSteps

  lemma PartyFrame(cfg: Config, s: State, i: nat, childFails: bool)
    requires Inv(cfg, s) && i < |s.ps| && PartyEnabled(s, i)
    ensures var t := PartyStep(s, i, childFails);
            && t.ds == s.ds && t.os == s.os && t.ps == s.ps[i := t.ps[i]]
            && t.shm == s.shm.(created := t.shm.created, adults := t.shm.adults, children := t.shm.children,
                               vipCreated := t.shm.vipCreated, inOffice := t.shm.inOffice,
                               waiting := t.shm.waiting, leftEarly := t.shm.leftEarly)
            && t.shm.waiting == s.shm.waiting - WaitingSeats(s.ps[i]) + WaitingSeats(t.ps[i])
            && t.overcount == s.overcount
  {
    PartySteps.PartyMoves(cfg, s, i, childFails);
  }

  lemma DriverFrame(cfg: Config, s: State, g: nat, due: bool)
    requires Inv(cfg, s) && g < |s.ds| && DriverEnabled(s, g) && !s.ds[g].pc.AtDoor?
    ensures var t := DriverStep(cfg, s, g, due);
            && t.os == s.os && t.ps == s.ps && |t.ds| == |s.ds| && t.ds == s.ds[g := t.ds[g]]
            && |t.shm.buses| == |s.shm.buses| && |t.shm.driverPids| == |s.shm.driverPids|
            && t.shm == s.shm.(buses := s.shm.buses[g := t.shm.buses[g]],
                               driverPids := s.shm.driverPids[g := t.shm.driverPids[g]], active := t.shm.active,
                               transported := t.shm.transported)
            && t.overcount == s.overcount
  {
    DriverSteps.DriverMoves(cfg, s, g, due);
  }

  lemma SeatFrame(cfg: Config, s: State, g: nat, due: bool)
    requires Inv(cfg, s) && g < |s.ds| && DriverEnabled(s, g) && s.ds[g].pc.AtDoor?
    ensures var t := DriverStep(cfg, s, g, due); var i := Serving(s.ds[g]) - 1;
            && 0 <= i < |s.ps| && t.os == s.os && t.ps == s.ps[i := t.ps[i]]
            && |t.ds| == |s.ds| && t.ds == s.ds[g := t.ds[g]] && |t.shm.buses| == |s.shm.buses|
            && t.shm == s.shm.(buses := s.shm.buses[g := t.shm.buses[g]], waiting := t.shm.waiting,
                               boarded := t.shm.boarded, boardedVip := t.shm.boardedVip)
            && t.shm.boarded + t.shm.waiting == s.shm.boarded + s.shm.waiting && t.shm.waiting < s.shm.waiting
            && t.overcount == s.overcount
  {
    var i := Serving(s.ds[g]) - 1;
    DriverSteps.ReadyDriver(cfg, s, g);
    DriverSteps.SeatShape(cfg, s, g, due);
    assert PartyOk(s.ps[i], i, s.shm.stationOpen, s.shm.running);
    WaitingCovers(s.shm, s.ps, i);
  }

  lemma OfficeFrame(cfg: Config, s: State, k: nat)
    requires Inv(cfg, s) && k < |s.os| && OfficeEnabled(s, k)
    ensures var t := OfficeStep(s, k);
            && t.ds == s.ds && |t.os| == |s.os| && t.os == s.os[k := t.os[k]] && |t.ps| == |s.ps|
            && t.shm == s.shm.(inOffice := t.shm.inOffice, issued := t.shm.issued, soldPeople := t.shm.soldPeople,
                               denied := t.shm.denied, officePids := t.shm.officePids, officeBusy := t.shm.officeBusy)
            && t.shm.issued == s.shm.issued + (if s.os[k].Serve? then 1 else 0)
            && t.overcount == s.overcount
  {
    if s.os[k].Serve? {
      OfficeSteps.HeldRequestValid(s, k);
      OfficeSteps.ServeShape(s, k);
    } else if s.os[k].DrainDeny? {
      OfficeSteps.DenyShape(s, k);
    } else {
      OfficeSteps.OfficeMoves(cfg, s, k);
    }
  }

  /** Steps of the dispatcher and of main, crashes and signals, short of closing and shutdown. */
  predicate IsQuietEnvironment(step: Step) {
    step.DriverCrash? || step.EarlySignal? || step.WakeEntryQueue? || step.WakeTicketQueue? || step.EndTest?
    || step.TerminateSignal? || step.SpawningStops?
  }

  lemma EnvironmentFrame(cfg: Config, s: State, step: Step)
    requires Dimensions(s) && Enabled(s, step) && IsQuietEnvironment(step)
    ensures var t := Apply(cfg, s, step);
            && t.ps == s.ps && t.os == s.os && t.overcount == s.overcount && |t.ds| == |s.ds|
            && t.shm == s.shm.(spawningStopped := t.shm.spawningStopped)
  {
  }

  lemma EnvironmentDrivers(cfg: Config, s: State, step: Step)
    requires Dimensions(s) && Enabled(s, step) && IsQuietEnvironment(step)
    ensures var t := Apply(cfg, s, step);
            |t.ds| == |s.ds| && forall g :: 0 <= g < |s.ds| ==>
              t.ds[g] == s.ds[g].(crashed := t.ds[g].crashed, early := t.ds[g].early)
              && (s.ds[g].crashed ==> t.ds[g].crashed)
  {
  }

  lemma ShutdownFrame(cfg: Config, s: State)
    requires Inv(cfg, s) && Enabled(s, ShutDown)
    ensures var t := Apply(cfg, s, ShutDown);
            && t.ps == s.ps && t.os == s.os && |t.ds| == |s.ds|
            && (forall g :: 0 <= g < |s.ds| ==> t.ds[g] == s.ds[g].(trip := t.ds[g].trip))
            && t.shm == s.shm.(running := false, transported := t.shm.transported, buses := t.shm.buses)
            && s.shm.running
  {
  }

  /** Bus g and its driver stay as they are, but for flags, open doors and history. */
  predicate BusStays(s: State, t: State, g: nat) {
    && g < |s.ds| && g < |s.shm.buses|
    && |t.ds| == |s.ds| && |t.shm.buses| == |s.shm.buses|
    && t.ds[g].pc == s.ds[g].pc
    && t.shm.buses[g] == s.shm.buses[g].(boardingOpen := t.shm.buses[g].boardingOpen)
  }

  lemma ClearedRow(m: Shared, dead: seq<bool>, g: nat)
    requires Shape(m) && |dead| == |m.buses| && g < |m.buses|
    ensures var bs := ClearDead(m, dead).buses;
            |bs| == |m.buses| && bs[g] == m.buses[g].(boardingOpen := bs[g].boardingOpen)
  {
  }

  lemma ReassignedRow(m: Shared, g: nat)
    requires Shape(m) && g < |m.buses|
    ensures var bs := Reassign(m).buses;
            |bs| == |m.buses| && bs[g] == m.buses[g].(boardingOpen := bs[g].boardingOpen)
  {
  }

  lemma WatchdogBuses(cfg: Config, s: State, dead: seq<bool>, g: nat)
    requires Dimensions(s) && Enabled(s, WatchdogRound(dead)) && g < |s.ds|
    ensures BusStays(s, Apply(cfg, s, WatchdogRound(dead)), g)
  {
    ClearedRow(s.shm, dead, g);
    ReassignedRow(ClearDead(s.shm, dead), g);
  }

  lemma EnvironmentBuses(cfg: Config, s: State, step: Step, g: nat)
    requires Inv(cfg, s) && Enabled(s, step) && g < |s.ds| && (IsQuietEnvironment(step) || step.ClosingSignal?)
    ensures BusStays(s, Apply(cfg, s, step), g)
  {
    if !step.ClosingSignal? {
      EnvironmentFrame(cfg, s, step);
      EnvironmentDrivers(cfg, s, step);
    }
  }

  lemma DriverBuses(cfg: Config, s: State, h: nat, due: bool, g: nat)
    requires Inv(cfg, s) && h < |s.ds| && DriverEnabled(s, h) && g < |s.ds| && h != g
    ensures BusStays(s, DriverStep(cfg, s, h, due), g)
  {
    if s.ds[h].pc.AtDoor? { SeatFrame(cfg, s, h, due); } else { DriverFrame(cfg, s, h, due); }
  }

  lemma ProcessBuses(cfg: Config, s: State, step: Step, g: nat)
    requires Inv(cfg, s) && Enabled(s, step) && g < |s.ds| && !(step.DriverMove? && step.g == g)
    requires step.PartyMove? || step.DriverMove? || step.OfficeMove?
    ensures BusStays(s, Apply(cfg, s, step), g)
  {
    if step.PartyMove? {
      PartyFrame(cfg, s, step.i, step.childFails);
    } else if step.DriverMove? {
      DriverBuses(cfg, s, step.g, step.due, g);
    } else {
      OfficeFrame(cfg, s, step.k);
    }
  }

  /** The steps of parties, drivers and offices neither close the station nor shut down. */
  lemma ProcessFlags(cfg: Config, s: State, step: Step)
    requires Inv(cfg, s) && Enabled(s, step) && (step.PartyMove? || step.DriverMove? || step.OfficeMove?)
    ensures var t := Apply(cfg, s, step);
            && t.shm.running == s.shm.running && t.shm.stationClosed == s.shm.stationClosed
            && t.overcount == s.overcount
  {
    if step.PartyMove? {
      PartyFrame(cfg, s, step.i, step.childFails);
    } else if step.DriverMove? {
      if s.ds[step.g].pc.AtDoor? {
        SeatFrame(cfg, s, step.g, step.due);
      } else {
        DriverFrame(cfg, s, step.g, step.due);
      }
    } else {
      OfficeFrame(cfg, s, step.k);
    }
  }

  /** A step that is neither driver g's own nor the shutdown leaves bus g and its driver where they are. */
  lemma BusFrame(cfg: Config, s: State, step: Step, g: nat)
    requires Inv(cfg, s) && Enabled(s, step) && g < |s.ds| && !(step.DriverMove? && step.g == g) && !step.ShutDown?
    ensures BusStays(s, Apply(cfg, s, step), g)
  {
    if step.PartyMove? || step.DriverMove? || step.OfficeMove? {
      ProcessBuses(cfg, s, step, g);
    } else if step.WatchdogRound? {
      WatchdogBuses(cfg, s, step.dead, g);
    } else {
      EnvironmentBuses(cfg, s, step, g);
    }
  }
}
