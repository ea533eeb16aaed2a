/** Whole lives of the processes: why a driver, an office or a party ends, and what must have happened before. */
module Lifecycles {
  import opened Sequences
  import opened Domain
  import opened SharedRecord
  import opened Protocol
  import opened Invariants
  import opened Reachability
  import opened Frames
  import opened FlowCharts
  import opened Capacity
  import opened Transport
  import Conservation
  import OfficeSteps

  // --- drivers ---

  /** Past the main loop, on the way to the end. */
  predicate Leaving(pc: DriverPc) {
    || pc.FinalCheck? || pc.Exit? || pc.Done?
    || (pc.EntranceClear? && pc.last) || (pc.Leave? && pc.last) || (pc.Travelling? && pc.last)
  }

  /** The simulation is over, and not (the station is closed with people still waiting). */
  predicate MayLeave(m: Shared) {
    !m.running && !(m.stationClosed && m.waiting > 0)
  }

  lemma DriverLeavesBy(cfg: Config, s: State, g: nat, due: bool)
    requires Dimensions(s) && g < |s.ds| && DriverEnabled(s, g)
    ensures var pc := s.ds[g].pc; var pc' := DriverStep(cfg, s, g, due).ds[g].pc;
            && (!Leaving(pc) ==> (Leaving(pc') <==> pc.Check? && MayLeave(s.shm)))
            && (Leaving(pc) ==> Leaving(pc'))
  {
    DriverLooks(cfg, s, g, due);
    DriverTravels(cfg, s, g, due);
    DriverBoards(cfg, s, g, due);
    if s.ds[g].pc.DepartCheck? { DriverDecides(cfg, s, g, due); }
  }

  lemma StepLeaves(cfg: Config, s: State, step: Step, g: nat)
    requires Inv(cfg, s) && Enabled(s, step) && g < |s.ds|
    ensures var t := Apply(cfg, s, step);
            g < |t.ds| && (Leaving(t.ds[g].pc) ==> Leaving(s.ds[g].pc) || (s.ds[g].pc.Check? && MayLeave(s.shm)))
  {
    if step.ShutDown? {
      ShutdownFrame(cfg, s);
    } else if step.DriverMove? && step.g == g {
      DriverFleet(cfg, s, g, step.due);
      DriverLeavesBy(cfg, s, g, step.due);
    } else {
      BusFrame(cfg, s, step, g);
    }
  }

  lemma LeavesAt(cfg: Config, run: seq<State>, k: nat, g: nat)
    requires IsRun(cfg, run) && k + 1 < |run| && g < |run[k].ds| && g < |run[k + 1].ds| && Leaving(run[k + 1].ds[g].pc)
    ensures Leaving(run[k].ds[g].pc) || (run[k].ds[g].pc.Check? && MayLeave(run[k].shm))
  {
    RunStep(cfg, run, k);
    var step :| Enabled(run[k], step) && run[k + 1] == Apply(cfg, run[k], step);
    StepLeaves(cfg, run[k], step, g);
  }

  /** A driver on its way to the end, by a final departure or not, was at the top of its loop in an earlier state in
      which the simulation was over and nobody was left waiting in a closed station. */
  lemma {:induction false} DriverLeftFor(cfg: Config, run: seq<State>, k: nat, g: nat) returns (j: nat)
    requires IsRun(cfg, run) && k < |run| && g < |run[k].ds| && Leaving(run[k].ds[g].pc)
    ensures j < k && g < |run[j].ds| && run[j].ds[g].pc.Check?
    ensures !run[j].shm.running && !(run[j].shm.stationClosed && run[j].shm.waiting > 0)
  {
    assert Init(cfg, run[0]) && k > 0;
    FleetAt(cfg, run, k - 1);
    LeavesAt(cfg, run, k - 1, g);
    if Leaving(run[k - 1].ds[g].pc) {
      j := DriverLeftFor(cfg, run, k - 1, g);
    } else {
      j := k - 1;
    }
  }

  /** An ended driver has left nobody behind in its bus, as far as the bus counts them. */
  predicate EndsEmpty(d: Driver, b: Bus) {
    d.pc.Exit? || d.pc.Done? ==> b.passengerCount == 0
  }

  lemma LastStepsKeepCount(cfg: Config, s: State, g: nat, due: bool)
    requires Dimensions(s) && g < |s.ds| && DriverEnabled(s, g) && (s.ds[g].pc.FinalCheck? || s.ds[g].pc.Exit?)
    ensures var bs := DriverStep(cfg, s, g, due).shm.buses;
            |bs| == |s.shm.buses| && bs[g].passengerCount == s.shm.buses[g].passengerCount
  {
  }

  lemma DriverEndsBy(cfg: Config, s: State, g: nat, due: bool)
    requires Dimensions(s) && g < |s.ds| && DriverEnabled(s, g)
    ensures var pc' := DriverStep(cfg, s, g, due).ds[g].pc; var pc := s.ds[g].pc; var b := s.shm.buses[g];
            pc'.Exit? || pc'.Done? ==>
              || (pc.FinalCheck? && !(b.atStation && b.passengerCount > 0))
              || pc.Travelling? || pc.Exit?
  {
    DriverLooks(cfg, s, g, due);
    DriverTravels(cfg, s, g, due);
    DriverBoards(cfg, s, g, due);
    if s.ds[g].pc.DepartCheck? { DriverDecides(cfg, s, g, due); }
  }

  lemma DriverEndsEmpty(cfg: Config, s: State, g: nat, due: bool)
    requires Inv(cfg, s) && g < |s.ds| && DriverEnabled(s, g) && EndsEmpty(s.ds[g], s.shm.buses[g])
    ensures var t := DriverStep(cfg, s, g, due);
            g < |t.ds| && g < |t.shm.buses| && EndsEmpty(t.ds[g], t.shm.buses[g])
  {
    assert BusOk(cfg, s.shm.buses[g], s.shm.driverPids[g], s.ds[g]);
    DriverFleet(cfg, s, g, due);
    StepKeeps(cfg, s, DriverMove(g, due));
    DriverEndsBy(cfg, s, g, due);
    if s.ds[g].pc.Travelling? {
      ReturnClears(cfg, s, g, due);
    } else if s.ds[g].pc.FinalCheck? || s.ds[g].pc.Exit? {
      LastStepsKeepCount(cfg, s, g, due);
    }
  }

  lemma StepEndsEmpty(cfg: Config, s: State, step: Step, g: nat)
    requires Inv(cfg, s) && Enabled(s, step) && g < |s.ds| && EndsEmpty(s.ds[g], s.shm.buses[g])
    ensures var t := Apply(cfg, s, step);
            g < |t.ds| && g < |t.shm.buses| && EndsEmpty(t.ds[g], t.shm.buses[g])
  {
    if step.ShutDown? {
      ShutdownFrame(cfg, s);
    } else if step.DriverMove? && step.g == g {
      DriverEndsEmpty(cfg, s, g, step.due);
    } else {
      BusFrame(cfg, s, step, g);
    }
  }

  lemma EndsEmptyAt(cfg: Config, run: seq<State>, k: nat, g: nat)
    requires IsRun(cfg, run) && k + 1 < |run| && g < |run[k].ds| && g < |run[k].shm.buses|
    requires EndsEmpty(run[k].ds[g], run[k].shm.buses[g])
    ensures g < |run[k + 1].ds| && g < |run[k + 1].shm.buses|
    ensures EndsEmpty(run[k + 1].ds[g], run[k + 1].shm.buses[g])
  {
    RunStep(cfg, run, k);
    var step :| Enabled(run[k], step) && run[k + 1] == Apply(cfg, run[k], step);
    StepEndsEmpty(cfg, run[k], step, g);
  }

  /** No driver ends with people counted on its bus: the final departure credits them first. */
  lemma {:induction false} NobodyLeftOnBus(cfg: Config, run: seq<State>, k: nat, g: nat)
    requires IsRun(cfg, run) && k < |run| && g < |run[k].ds|
    ensures g < |run[k].shm.buses| && EndsEmpty(run[k].ds[g], run[k].shm.buses[g])
  {
    RunHolds(cfg, run, k);
    if k == 0 {
      assert Init(cfg, run[0]);
    } else {
      FleetAt(cfg, run, k - 1);
      NobodyLeftOnBus(cfg, run, k - 1, g);
      EndsEmptyAt(cfg, run, k - 1, g);
    }
  }

  // --- the early-departure signal ---

  lemma OthersKeepSignal(cfg: Config, s: State, step: Step, g: nat)
    requires Inv(cfg, s) && Enabled(s, step) && g < |s.ds| && s.ds[g].early
    requires !(step.DriverMove? && step.g == g)
    ensures var t := Apply(cfg, s, step); g < |t.ds| && t.ds[g].early
  {
    if step.PartyMove? {
      PartyFrame(cfg, s, step.i, step.childFails);
    } else if step.DriverMove? && s.ds[step.g].pc.AtDoor? {
      SeatFrame(cfg, s, step.g, step.due);
    } else if step.DriverMove? {
      DriverFrame(cfg, s, step.g, step.due);
    } else if step.OfficeMove? {
      OfficeFrame(cfg, s, step.k);
    } else if step.ShutDown? {
      ShutdownFrame(cfg, s);
    }
  }

  lemma SignalUsed(cfg: Config, s: State, step: Step, g: nat)
    requires Inv(cfg, s) && Enabled(s, step) && g < |s.ds| && s.ds[g].early
    ensures var t := Apply(cfg, s, step);
            g < |t.ds| && (!t.ds[g].early ==>
              s.ds[g].pc.DepartCheck? && t.ds[g].pc.Switch? && s.shm.buses[g].passengerCount > 0)
  {
    if step.DriverMove? && step.g == g {
      DriverFleet(cfg, s, g, step.due);
      DriverKeepsFlags(cfg, s, g, step.due);
      if s.ds[g].pc.DepartCheck? { DriverDecides(cfg, s, g, step.due); }
    } else {
      OthersKeepSignal(cfg, s, step, g);
    }
  }

  /** An early-departure signal is never swallowed: where it disappears, the bus departs with people. */
  lemma SignalNeverLost(cfg: Config, run: seq<State>, k: nat, g: nat)
    requires IsRun(cfg, run) && k + 1 < |run| && g < |run[k].ds| && run[k].ds[g].early
    ensures g < |run[k + 1].ds| && g < |run[k].shm.buses|
    ensures run[k + 1].ds[g].early
         || (run[k].ds[g].pc.DepartCheck? && run[k + 1].ds[g].pc.Switch? && run[k].shm.buses[g].passengerCount > 0)
  {
    RunStep(cfg, run, k);
    var step :| Enabled(run[k], step) && run[k + 1] == Apply(cfg, run[k], step);
    SignalUsed(cfg, run[k], step, g);
  }

  // --- while the station is open ---

  predicate Open(m: Shared) { m.running && !m.stationClosed }

  predicate DrainsOrEnded(o: OfficePc) {
    o.Drain? || o.DrainRelease? || o.DrainDeny? || o.DrainAnswer? || o.OfficeExit? || o.OfficeDone?
  }

  predicate TurnedAway(pc: PartyPc) {
    || pc.Refused? || pc.NoTicket? || pc.FoundClosed? || pc.GivenUp? || pc.Gone? || pc.LeaveStation?
    || (pc.EnterCheck? && pc.tries > 0) || (pc.AwaitEntry? && pc.tries > 0) || (pc.AtEntry? && pc.tries > 0)
    || (pc.LeaveEntry? && (pc.tries > 0 || !pc.entered))
  }

  /** Every office sells or is about to, no ticket has been denied, and nobody has been turned away or has left. */
  predicate Welcoming(s: State) {
    && (forall k :: 0 <= k < |s.os| ==> !DrainsOrEnded(s.os[k]))
    && s.shm.denied == 0
    && (forall i :: 0 <= i < |s.ps| ==> !TurnedAway(s.ps[i].pc))
  }

  lemma OpenSale(cfg: Config, s: State, k: nat)
    requires Inv(cfg, s) && k < |s.os| && OfficeEnabled(s, k) && s.os[k].Serve?
    ensures var t := OfficeStep(s, k);
            && |t.ps| == |s.ps| && (forall i :: 0 <= i < |s.ps| ==> t.ps[i].pc == s.ps[i].pc)
            && t.shm.denied == s.shm.denied
  {
    OfficeSteps.HeldRequestValid(s, k);
    OfficeSteps.ServeShape(s, k);
  }

  lemma OpenWork(cfg: Config, s: State, k: nat)
    requires Inv(cfg, s) && k < |s.os| && OfficeEnabled(s, k) && !s.os[k].Serve? && !s.os[k].DrainDeny?
    ensures OfficeStep(s, k).ps == s.ps && OfficeStep(s, k).shm.denied == s.shm.denied
  {
    OfficeSteps.OfficeMoves(cfg, s, k);
  }

  lemma OfficeStaysOpen(s: State, k: nat)
    requires Dimensions(s) && k < |s.os| && OfficeEnabled(s, k) && !DrainsOrEnded(s.os[k]) && Open(s.shm)
    ensures k < |OfficeStep(s, k).os| && !DrainsOrEnded(OfficeStep(s, k).os[k])
  {
    OfficeSells(s, k);
  }

  lemma OpenOffice(cfg: Config, s: State, k: nat)
    requires Inv(cfg, s) && k < |s.os| && OfficeEnabled(s, k) && Welcoming(s) && Open(s.shm)
    ensures Welcoming(OfficeStep(s, k))
  {
    OfficeFrame(cfg, s, k);
    OfficeStaysOpen(s, k);
    if s.os[k].Serve? { OpenSale(cfg, s, k); } else { OpenWork(cfg, s, k); }
  }

  predicate AtEntrance(pc: PartyPc) { pc.EnterCheck? || pc.AwaitEntry? || pc.AtEntry? || pc.LeaveEntry? }

  lemma OpenArrival(s: State, i: nat, childFails: bool)
    requires i < |s.ps| && PartyEnabled(s, i) && Open(s.shm) && s.shm.stationOpen && !TurnedAway(s.ps[i].pc)
    requires !StageOf(s.ps[i].pc).Inside? && !AtEntrance(s.ps[i].pc) && !s.ps[i].pc.AwaitTicket?
    ensures !TurnedAway(PartyStep(s, i, childFails).ps[i].pc)
  {
    PartyStarts(s, i, childFails);
    PartyBuys(s, i, childFails);
  }

  lemma OpenAnswer(cfg: Config, s: State, i: nat, childFails: bool)
    requires Inv(cfg, s) && i < |s.ps| && PartyEnabled(s, i) && s.ps[i].pc.AwaitTicket? && s.shm.denied == 0
    ensures PartyStep(s, i, childFails).ps[i].pc == CheckClosed
  {
    NoDenialWaiting(cfg, s, i);
    PartyBuys(s, i, childFails);
  }

  lemma OpenEntrance(cfg: Config, s: State, i: nat, childFails: bool)
    requires Inv(cfg, s) && i < |s.ps| && PartyEnabled(s, i) && Welcoming(s) && Open(s.shm) && AtEntrance(s.ps[i].pc)
    ensures !TurnedAway(PartyStep(s, i, childFails).ps[i].pc)
  {
    PartyEnters(s, i, childFails);
  }

  lemma OpenBoarding(cfg: Config, s: State, i: nat, childFails: bool)
    requires Inv(cfg, s) && i < |s.ps| && PartyEnabled(s, i) && Welcoming(s) && Open(s.shm)
    requires StageOf(s.ps[i].pc).Inside? && !AtEntrance(s.ps[i].pc)
    ensures !TurnedAway(PartyStep(s, i, childFails).ps[i].pc)
  {
    PartyBoards(s, i, childFails);
  }

  /** Where an open station sends a party, given that no answer so far was a denial. */
  lemma OpenParty(cfg: Config, s: State, i: nat, childFails: bool)
    requires Inv(cfg, s) && i < |s.ps| && PartyEnabled(s, i) && Welcoming(s) && Open(s.shm)
    ensures !TurnedAway(PartyStep(s, i, childFails).ps[i].pc)
  {
    if AtEntrance(s.ps[i].pc) {
      OpenEntrance(cfg, s, i, childFails);
    } else if StageOf(s.ps[i].pc).Inside? {
      OpenBoarding(cfg, s, i, childFails);
    } else if s.ps[i].pc.AwaitTicket? {
      OpenAnswer(cfg, s, i, childFails);
    } else {
      OpenArrival(s, i, childFails);
    }
  }

  lemma NobodyDenied(cfg: Config, s: State, i: nat)
    requires Inv(cfg, s) && i < |s.ps| && s.shm.denied == 0
    ensures s.ps[i].denied == 0
  {
    assert DeniedTickets(s.ps[i]) == s.ps[i].denied;
    SumAtLeast(DeniedTickets, s.ps, i);
  }

  lemma NoDenialWaiting(cfg: Config, s: State, i: nat)
    requires Inv(cfg, s) && i < |s.ps| && s.ps[i].pc.AwaitTicket? && s.shm.denied == 0
    requires FirstWith(TicketResponseKey, s.ticketR, s.ps[i].info.pid) < |s.ticketR|
    ensures s.ticketR[FirstWith(TicketResponseKey, s.ticketR, s.ps[i].info.pid)].approved
  {
    var r := s.ticketR[FirstWith(TicketResponseKey, s.ticketR, s.ps[i].info.pid)];
    assert s.ps[i].info.pid == i + 1 by { assert PartyOk(s.ps[i], i, s.shm.stationOpen, s.shm.running); }
    assert SaleResponseOk(s.ps, r);
    NobodyDenied(cfg, s, i);
  }

  lemma OpenOthers(cfg: Config, s: State, step: Step)
    requires Inv(cfg, s) && Enabled(s, step) && Welcoming(s) && Open(s.shm)
    requires !step.PartyMove? && !step.OfficeMove?
    ensures Welcoming(Apply(cfg, s, step))
  {
    if step.DriverMove? && s.ds[step.g].pc.AtDoor? {
      SeatFrame(cfg, s, step.g, step.due);
      SeatedStay(cfg, s, step.g, step.due);
    } else if step.DriverMove? {
      DriverFrame(cfg, s, step.g, step.due);
    } else if IsQuietEnvironment(step) {
      EnvironmentFrame(cfg, s, step);
    } else if step.ShutDown? {
      ShutdownFrame(cfg, s);
    }
  }

  lemma SeatedStay(cfg: Config, s: State, g: nat, due: bool)
    requires Inv(cfg, s) && g < |s.ds| && DriverEnabled(s, g) && s.ds[g].pc.AtDoor?
    ensures var t := DriverStep(cfg, s, g, due);
            |t.ps| == |s.ps| && forall i :: 0 <= i < |s.ps| ==> t.ps[i].pc == s.ps[i].pc
  {
  }

  lemma StepWelcomes(cfg: Config, s: State, step: Step)
    requires Inv(cfg, s) && Enabled(s, step) && Welcoming(s) && Open(s.shm)
    ensures Welcoming(Apply(cfg, s, step))
  {
    if step.PartyMove? {
      PartyFrame(cfg, s, step.i, step.childFails);
      OpenParty(cfg, s, step.i, step.childFails);
    } else if step.OfficeMove? {
      OpenOffice(cfg, s, step.k);
    } else {
      OpenOthers(cfg, s, step);
    }
  }

  /** What is over stays over. */
  lemma StaysOver(cfg: Config, s: State, step: Step)
    requires Inv(cfg, s) && Enabled(s, step)
    ensures Open(Apply(cfg, s, step).shm) ==> Open(s.shm)
  {
    if step.PartyMove? || step.DriverMove? || step.OfficeMove? {
      ProcessFlags(cfg, s, step);
    } else if IsQuietEnvironment(step) {
      EnvironmentFrame(cfg, s, step);
    }
  }

  lemma WelcomesAt(cfg: Config, run: seq<State>, k: nat)
    requires IsRun(cfg, run) && k + 1 < |run| && (Open(run[k].shm) ==> Welcoming(run[k])) && Open(run[k + 1].shm)
    ensures Welcoming(run[k + 1])
  {
    RunStep(cfg, run, k);
    var step :| Enabled(run[k], step) && run[k + 1] == Apply(cfg, run[k], step);
    StaysOver(cfg, run[k], step);
    StepWelcomes(cfg, run[k], step);
  }

  /** As long as the simulation runs and the station is open, no office drains or ends, no ticket is denied, no entry
      fails, and nobody is turned away or leaves unserved. */
  lemma {:induction false} OpenStationWelcomes(cfg: Config, run: seq<State>, k: nat)
    requires IsRun(cfg, run) && k < |run| && run[k].shm.running && !run[k].shm.stationClosed
    ensures Welcoming(run[k])
  {
    if k == 0 {
      assert Init(cfg, run[0]);
    } else {
      OpenBefore(cfg, run, k - 1);
      if Open(run[k - 1].shm) { OpenStationWelcomes(cfg, run, k - 1); }
      WelcomesAt(cfg, run, k - 1);
    }
  }

  lemma OpenBefore(cfg: Config, run: seq<State>, k: nat)
    requires IsRun(cfg, run) && k + 1 < |run|
    ensures Open(run[k + 1].shm) ==> Open(run[k].shm)
  {
    RunStep(cfg, run, k);
    var step :| Enabled(run[k], step) && run[k + 1] == Apply(cfg, run[k], step);
    StaysOver(cfg, run[k], step);
  }

  lemma WelcomedAt(cfg: Config, run: seq<State>, k: nat)
    requires IsRun(cfg, run) && k + 1 < |run| && Open(run[k].shm) && Welcoming(run[k])
    ensures Welcoming(run[k + 1])
  {
    RunStep(cfg, run, k);
    var step :| Enabled(run[k], step) && run[k + 1] == Apply(cfg, run[k], step);
    StepWelcomes(cfg, run[k], step);
  }

  /** So where an office drains or has ended, a ticket has been denied or a party is turned away, the station was
      closed or the simulation over in the state before already. */
  lemma NoWelcomeFor(cfg: Config, run: seq<State>, k: nat)
    requires IsRun(cfg, run) && k < |run| && !Welcoming(run[k])
    ensures k > 0 && (!run[k - 1].shm.running || run[k - 1].shm.stationClosed)
  {
    assert Init(cfg, run[0]) && k > 0;
    if Open(run[k - 1].shm) {
      OpenStationWelcomes(cfg, run, k - 1);
      WelcomedAt(cfg, run, k - 1);
    }
  }

  // --- closing and the end test ---

  lemma ProcessesKeepClosing(cfg: Config, s: State, step: Step)
    requires Inv(cfg, s) && Enabled(s, step) && (step.PartyMove? || step.DriverMove? || step.OfficeMove?)
    ensures var m' := Apply(cfg, s, step).shm;
            m'.stationClosed == s.shm.stationClosed && m'.spawningStopped == s.shm.spawningStopped
  {
    if step.PartyMove? {
      PartyFrame(cfg, s, step.i, step.childFails);
    } else if step.OfficeMove? {
      OfficeFrame(cfg, s, step.k);
    } else if s.ds[step.g].pc.AtDoor? {
      SeatFrame(cfg, s, step.g, step.due);
    } else {
      DriverFrame(cfg, s, step.g, step.due);
    }
  }

  lemma ClosedFor(cfg: Config, s: State, step: Step)
    requires Inv(cfg, s) && Enabled(s, step) && (s.shm.stationClosed ==> s.shm.spawningStopped)
    ensures Apply(cfg, s, step).shm.stationClosed ==> Apply(cfg, s, step).shm.spawningStopped
  {
    if step.PartyMove? || step.DriverMove? || step.OfficeMove? {
      ProcessesKeepClosing(cfg, s, step);
    } else {
      DispatcherActs(cfg, s, step);
    }
  }

  lemma ClosedForAt(cfg: Config, run: seq<State>, k: nat)
    requires IsRun(cfg, run) && k + 1 < |run| && (run[k].shm.stationClosed ==> run[k].shm.spawningStopped)
    ensures run[k + 1].shm.stationClosed ==> run[k + 1].shm.spawningStopped
  {
    RunStep(cfg, run, k);
    var step :| Enabled(run[k], step) && run[k + 1] == Apply(cfg, run[k], step);
    ClosedFor(cfg, run[k], step);
  }

  /** In every state a closed station is not open, and main has been told to spawn nobody else. */
  lemma {:induction false} ClosingStopsSpawning(cfg: Config, run: seq<State>, k: nat)
    requires IsRun(cfg, run) && k < |run|
    ensures run[k].shm.stationClosed ==> run[k].shm.spawningStopped && !run[k].shm.stationOpen
  {
    RunHolds(cfg, run, k);
    if k == 0 {
      assert Init(cfg, run[0]);
    } else {
      ClosingStopsSpawning(cfg, run, k - 1);
      ClosedForAt(cfg, run, k - 1);
    }
  }

  /** The end test ends a run if and only if spawning has stopped, nobody waits, no ticket is pending, and every bus
      is at the station with nobody on board or entering; otherwise the dispatcher goes on. */
  lemma EndTestIff(cfg: Config, run: seq<State>, k: nat)
    requires IsRun(cfg, run) && k < |run| && run[k].dispatcher == Loop
    ensures Dimensions(run[k]) && Enabled(run[k], EndTest)
    ensures var m := run[k].shm; var next := Apply(cfg, run[k], EndTest).dispatcher;
            && (next == Ending <==>
                  && m.spawningStopped && m.waiting == 0 && m.inOffice == 0
                  && forall g :: 0 <= g < |m.buses| ==>
                       m.buses[g].atStation && m.buses[g].passengerCount == 0 && m.buses[g].enteringCount == 0)
            && (next == Ending || next == Loop)
  {
    RunHolds(cfg, run, k);
    Conservation.CountersMeanWhatTheySay(cfg, run, k);
    SimulationOverMeaning(run[k].shm);
  }
}
