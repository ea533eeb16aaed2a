/** The control flow of each process: from where to where, and under which conditions on the shared record, read off
    the record's fields. */
module FlowCharts {
  import opened Sequences
  import opened Domain
  import opened SharedRecord
  import opened Protocol

  // --- drivers ---

  /** Before and after work: a driver looks for the end, then for its turn. */
  lemma DriverLooks(cfg: Config, s: State, g: nat, due: bool)
    requires Dimensions(s) && g < |s.ds| && DriverEnabled(s, g)
    ensures var m := s.shm; var b := m.buses[g]; var d := s.ds[g]; var d' := DriverStep(cfg, s, g, due).ds[g];
            && (d.pc.Unregistered? ==> d'.pc == Check)
            && (d.pc.Check? ==>
                  d'.pc == (if !m.running && !(m.stationClosed && m.waiting > 0) then FinalCheck else ReadState))
            && (d.pc.FinalCheck? ==>
                  d'.pc == (if b.atStation && (b.passengerCount > 0 || b.enteringCount > 0) then EntranceClear(true)
                            else Exit))
            && (d.pc.ReadState? ==>
                  && (d'.wasActive <==> m.active == g)
                  && d'.pc == (if !(b.atStation && b.boardingOpen && m.active == g) then Check
                               else if cfg.perf then DepartCheck(BeforeReceive) else Receive))
  {
  }

  /** At work: one request after the other. */
  lemma DriverBoards(cfg: Config, s: State, g: nat, due: bool)
    requires Dimensions(s) && g < |s.ds| && DriverEnabled(s, g)
    ensures var d := s.ds[g]; var t := DriverStep(cfg, s, g, due); var pc' := t.ds[g].pc;
            && (d.pc.Receive? ==>
                  var k := NextRequest(s.boardQ, MSG_BOARD_REQUEST);
                  t.boardQ == RemoveAt(s.boardQ, k)
                  && pc' == (if ValidBoardingRequest(s.boardQ[k]) then Process(s.boardQ[k]) else Check))
            && (d.pc.Process? ==>
                  var v := CanBoard(cfg, s.shm, g, d.pc.req.passenger);
                  pc' == (if v == Admitted then AwaitDoor(d.pc.req) else Answer(d.pc.req, v)))
            && (d.pc.AwaitDoor? ==> pc' == AtDoor(d.pc.req))
            && (d.pc.AtDoor? ==> pc' == LeaveDoor(d.pc.req))
            && (d.pc.LeaveDoor? ==> pc' == Answer(d.pc.req, Admitted))
            && (d.pc.Answer? ==> pc' == DepartCheck(if cfg.perf then AfterBoarding else LoopEnd))
  {
  }

  /** A bus goes when it is full and is to go when full, or when it has people and is due or was asked to go early. */
  predicate Goes(cfg: Config, b: Bus, due: bool, early: bool) {
    (cfg.departWhenFull && b.passengerCount >= cfg.seats) || (b.passengerCount > 0 && (due || early))
  }

  /** After should_depart: where, and what is left of the request to go early. */
  lemma DriverDecides(cfg: Config, s: State, g: nat, due: bool)
    requires Dimensions(s) && g < |s.ds| && DriverEnabled(s, g) && s.ds[g].pc.DepartCheck?
    ensures var b := s.shm.buses[g]; var d := s.ds[g]; var d' := DriverStep(cfg, s, g, due).ds[g];
            && d'.pc == (if Goes(cfg, b, due, d.early) then Switch
                         else if d.pc.site == BeforeReceive then Receive
                         else if d.pc.site == AfterBoarding then DepartCheck(LoopEnd)
                         else Check)
            && (d.early && !d'.early <==> Goes(cfg, b, due, d.early) && !Goes(cfg, b, due, false))
            && (d'.early ==> d.early)
  {
  }

  /** On the way out and back; only a last journey leads out of the loop. */
  lemma DriverTravels(cfg: Config, s: State, g: nat, due: bool)
    requires Dimensions(s) && g < |s.ds| && DriverEnabled(s, g)
    ensures var d := s.ds[g]; var pc' := DriverStep(cfg, s, g, due).ds[g].pc;
            && (d.pc.Switch? ==> pc' == EntranceClear(false))
            && (d.pc.EntranceClear? ==>
                  pc' == (if s.shm.buses[g].enteringCount > 0 then d.pc else Leave(d.pc.last)))
            && (d.pc.Leave? ==> pc' == Travelling(d.pc.last))
            && (d.pc.Travelling? ==> pc' == (if d.pc.last then Exit else Check))
            && (d.pc.Exit? ==> pc' == Done)
  {
  }

  predicate AtRequest(pc: DriverPc) {
    pc.Receive? || pc.Process? || pc.AwaitDoor? || pc.AtDoor? || pc.LeaveDoor? || pc.Answer?
  }

  predicate OnTheWay(pc: DriverPc) {
    pc.Switch? || pc.EntranceClear? || pc.Leave? || pc.Travelling? || pc.Exit?
  }

  predicate FlagsKept(d: Driver, d': Driver) {
    !d'.crashed && (!d.pc.DepartCheck? ==> d'.early == d.early) && (!d.pc.ReadState? ==> d'.wasActive == d.wasActive)
  }

  predicate AtDoors(pc: DriverPc) { pc.AwaitDoor? || pc.AtDoor? || pc.LeaveDoor? }

  lemma DoorKeepsFlags(cfg: Config, s: State, g: nat, due: bool)
    requires Dimensions(s) && g < |s.ds| && DriverEnabled(s, g) && AtDoors(s.ds[g].pc)
    ensures FlagsKept(s.ds[g], DriverStep(cfg, s, g, due).ds[g])
  {
  }

  lemma RequestKeepsFlags(cfg: Config, s: State, g: nat, due: bool)
    requires Dimensions(s) && g < |s.ds| && DriverEnabled(s, g) && AtRequest(s.ds[g].pc)
    ensures FlagsKept(s.ds[g], DriverStep(cfg, s, g, due).ds[g])
  {
    if AtDoors(s.ds[g].pc) { DoorKeepsFlags(cfg, s, g, due); }
  }

  lemma WayKeepsFlags(cfg: Config, s: State, g: nat, due: bool)
    requires Dimensions(s) && g < |s.ds| && DriverEnabled(s, g) && OnTheWay(s.ds[g].pc)
    ensures FlagsKept(s.ds[g], DriverStep(cfg, s, g, due).ds[g])
  {
  }

  /** A driver changes its flags where should_depart or the look at the active bus does, and nowhere else. */
  lemma DriverKeepsFlags(cfg: Config, s: State, g: nat, due: bool)
    requires Dimensions(s) && g < |s.ds| && DriverEnabled(s, g)
    ensures FlagsKept(s.ds[g], DriverStep(cfg, s, g, due).ds[g])
  {
    if AtRequest(s.ds[g].pc) {
      RequestKeepsFlags(cfg, s, g, due);
    } else if OnTheWay(s.ds[g].pc) {
      WayKeepsFlags(cfg, s, g, due);
    }
  }

  // --- parties ---

  /** From the start to the ticket office, or past it. */
  lemma PartyStarts(s: State, i: nat, childFails: bool)
    requires i < |s.ps| && PartyEnabled(s, i)
    ensures var m := s.shm; var p := s.ps[i]; var p' := PartyStep(s, i, childFails).ps[i];
            && (p.pc.Spawned? ==> p'.pc == (if m.running && m.stationOpen then Arrived else Refused))
            && (p.pc.Arrived? ==>
                  && p'.info == (if p.info.hasChildWith && childFails
                                 then p.info.(hasChildWith := false, seatCount := 1) else p.info)
                  && p'.pc == (if p.info.isVip then CheckClosed else WantsTicket))
            && (p.pc.CheckClosed? ==> p'.pc == (if m.stationClosed then FoundClosed else EnterCheck(0)))
            && (p.pc.NoTicket? || p.pc.FoundClosed? || p.pc.GivenUp? ==> p'.pc == Gone)
  {
  }

  /** Through the ticket office. */
  lemma PartyBuys(s: State, i: nat, childFails: bool)
    requires i < |s.ps| && PartyEnabled(s, i)
    ensures var p := s.ps[i]; var p' := PartyStep(s, i, childFails).ps[i];
            && (p.pc.WantsTicket? ==> p'.pc == AwaitTicketSlot)
            && (p.pc.AwaitTicketSlot? ==> p'.pc == SendTicket)
            && (p.pc.SendTicket? ==> p'.pc == AwaitTicket)
            && (p.pc.AwaitTicket? ==>
                  var r := s.ticketR[FirstWith(TicketResponseKey, s.ticketR, p.info.pid)];
                  && p'.pc == (if r.approved then CheckClosed else NoTicket)
                  && p'.info.hasTicket == (r.approved || p.info.hasTicket))
  {
  }

  /** At the entrance: a failed attempt is repeated, eleven attempts in all; the eleventh does not get in, even if
      it succeeds. */
  lemma PartyEnters(s: State, i: nat, childFails: bool)
    requires i < |s.ps| && PartyEnabled(s, i)
    ensures var m := s.shm; var p := s.ps[i]; var p' := PartyStep(s, i, childFails).ps[i];
            && (p.pc.EnterCheck? && m.stationOpen ==> p'.pc == AwaitEntry(p.pc.tries))
            && (p.pc.EnterCheck? && !m.stationOpen ==>
                  p'.pc == (if p.pc.tries < 10 then EnterCheck(p.pc.tries + 1) else GivenUp))
            && (p.pc.AwaitEntry? ==> p'.pc == AtEntry(p.pc.tries))
            && (p.pc.AtEntry? ==> p'.pc == LeaveEntry(p.pc.tries, m.stationOpen))
            && (p.pc.LeaveEntry? ==>
                  p'.pc == (if p.pc.tries >= 10 then GivenUp
                            else if p.pc.entered then BoardCheck else EnterCheck(p.pc.tries + 1)))
  {
  }

  /** In the station: attempts to board until one succeeds or the simulation ends. */
  lemma PartyBoards(s: State, i: nat, childFails: bool)
    requires i < |s.ps| && PartyEnabled(s, i)
    ensures var m := s.shm; var p := s.ps[i]; var t := PartyStep(s, i, childFails); var p' := t.ps[i];
            && (p.pc.BoardCheck? ==> p'.pc == (if m.running && m.boardingAllowed then FindBus else LeaveStation))
            && (p.pc.FindBus? ==>
                  p'.pc == (if m.active >= 0 && m.boardingAllowed then AwaitBoardSlot(m.active) else BoardCheck))
            && (p.pc.AwaitBoardSlot? ==> p'.pc == SendBoard(p.pc.bus))
            && (p.pc.SendBoard? ==>
                  && p'.pc == AwaitBoard
                  && t.boardQ == s.boardQ
                       + [BoardingRequest(if p.info.isVip then MSG_BOARD_REQUEST_VIP else MSG_BOARD_REQUEST,
                                          p.info, p.pc.bus)])
            && (p.pc.AwaitBoard? ==>
                  var r := s.boardR[FirstWith(BoardingResponseKey, s.boardR, p.info.pid)];
                  p'.pc == BoardAnswered(r.approved, r.busId))
            && (p.pc.BoardAnswered? ==>
                  p'.pc == (if p.pc.approved then Boarded else BoardCheck)
                  && (p.pc.approved ==> p'.info.assignedBus == p.pc.bus))
            && (p.pc.LeaveStation? ==> p'.pc == Gone)
  {
  }

  /** A party stops for a slot, a turn at the entrance, an answer, or for good, and for nothing else. */
  lemma PartyBlocks(s: State, i: nat)
    requires i < |s.ps|
    ensures var pc := s.ps[i].pc; var pid := s.ps[i].info.pid;
            !PartyEnabled(s, i) <==>
              || (pc.AwaitTicketSlot? && s.ticketSlots <= 0)
              || (pc.AwaitEntry? && s.entry <= 0)
              || (pc.AwaitBoardSlot? && s.boardSlots <= 0)
              || (pc.AwaitTicket? && forall k :: 0 <= k < |s.ticketR| ==> s.ticketR[k].mtype != pid)
              || (pc.AwaitBoard? && forall k :: 0 <= k < |s.boardR| ==> s.boardR[k].mtype != pid)
              || pc.Boarded? || pc.Gone? || pc.Refused?
  {
  }

  /** A driver stops for an empty queue, a door, or for good. */
  lemma DriverBlocks(s: State, g: nat)
    requires g < |s.ds|
    ensures var d := s.ds[g];
            !DriverEnabled(s, g) <==>
              || d.crashed || d.pc.Done?
              || (d.pc.Receive? && forall k: nat :: !Receivable(s.boardQ, k, MSG_BOARD_REQUEST))
              || (d.pc.AwaitDoor? && (if d.pc.req.passenger.hasBike then s.bikeDoor else s.passengerDoor) <= 0)
  {
    var k := NextRequest(s.boardQ, MSG_BOARD_REQUEST);
    if k < |s.boardQ| {
      assert Receivable(s.boardQ, k, MSG_BOARD_REQUEST);
    }
  }

  lemma OfficeBlocks(s: State, k: nat)
    requires k < |s.os|
    ensures !OfficeEnabled(s, k) <==> s.os[k].OfficeDone? || (s.os[k].OfficeReceive? && s.ticketQ == [])
  {
  }

  // --- ticket offices ---

  lemma OfficeSells(s: State, k: nat)
    requires Dimensions(s) && k < |s.os| && OfficeEnabled(s, k)
    ensures var m := s.shm; var o := s.os[k]; var o' := OfficeStep(s, k).os[k];
            && (o.Start? ==> o' == OfficeCheck)
            && (o.OfficeCheck? ==> o' == (if m.running && !m.stationClosed then OfficeReceive else Drain))
            && (o.OfficeReceive? ==> o' == ReleaseSlot(s.ticketQ[0]))
            && (o.ReleaseSlot? ==> o' == (if ValidTicketRequest(o.req) then MarkBusy(o.req) else OfficeCheck))
            && (o.MarkBusy? ==> o' == Serve(o.req))
            && (o.Serve? ==> o' == AnswerTicket(o.req, ValidPassenger(o.req.passenger)))
            && (o.AnswerTicket? ==> o' == MarkFree(o.req))
            && (o.MarkFree? ==> o' == OfficeCheck)
  {
  }

  lemma OfficeDrains(s: State, k: nat)
    requires Dimensions(s) && k < |s.os| && OfficeEnabled(s, k)
    ensures var o := s.os[k]; var o' := OfficeStep(s, k).os[k];
            && (o.Drain? ==> o' == (if s.ticketQ == [] then OfficeExit else DrainRelease(s.ticketQ[0])))
            && (o.DrainRelease? ==> o' == DrainDeny(o.req))
            && (o.DrainDeny? ==> o' == DrainAnswer(o.req))
            && (o.DrainAnswer? ==> o' == Drain)
            && (o.OfficeExit? ==> o' == OfficeDone)
  {
  }

  /** What a sale and a denial leave in the record. */
  lemma OfficeBooks(s: State, k: nat)
    requires Dimensions(s) && k < |s.os| && OfficeEnabled(s, k)
    ensures var m := s.shm; var o := s.os[k]; var m' := OfficeStep(s, k).shm;
            && (o.Serve? && ValidPassenger(o.req.passenger) ==>
                  m'.issued == m.issued + 1 && m'.soldPeople == m.soldPeople + SeatsNeeded(o.req.passenger)
                  && m'.inOffice == m.inOffice - 1 && m'.denied == m.denied)
            && ((o.Serve? && !ValidPassenger(o.req.passenger)) || o.DrainDeny? ==>
                  m'.denied == m.denied + 1 && m'.inOffice == m.inOffice - 1
                  && m'.issued == m.issued && m'.soldPeople == m.soldPeople)
            && (!o.Serve? && !o.DrainDeny? ==>
                  m'.issued == m.issued && m'.denied == m.denied && m'.inOffice == m.inOffice)
  {
  }

  // --- dispatcher ---

  lemma DispatcherActs(cfg: Config, s: State, step: Step)
    requires Dimensions(s) && Enabled(s, step)
    ensures var t := Apply(cfg, s, step);
            && (step.EarlySignal? ==> t.ds[step.g].early)
            && (step.DriverCrash? ==> t.ds[step.g].crashed)
            && (step.ClosingSignal? ==>
                  && t.shm.stationClosed && (!s.shm.stationClosed ==> !t.shm.stationOpen && t.shm.spawningStopped)
                  && t.dispatcher == (if s.shm.stationClosed then Loop else WakeEntry))
            && (step.WakeEntryQueue? ==> t.entry == 1000 && t.dispatcher == WakeTickets)
            && (step.WakeTicketQueue? ==> t.ticketSlots == 1000 && t.dispatcher == Loop)
            && (step.TerminateSignal? ==> t.dispatcher == Ending)
            && (step.ShutDown? ==> t.dispatcher == Ended && !t.shm.running)
            && (step.SpawningStops? ==> t.shm.spawningStopped)
  {
  }

  /** When the dispatcher, the drivers' crashes and the signals can act at all. */
  lemma EnvironmentActs(s: State, step: Step)
    requires Dimensions(s)
    ensures step.ClosingSignal? || step.EndTest? || step.TerminateSignal? ==>
              (Enabled(s, step) <==> s.dispatcher == Loop)
    ensures step.ShutDown? ==> (Enabled(s, step) <==> s.dispatcher == Ending)
    ensures step.SpawningStops? ==> Enabled(s, step)
    ensures step.EarlySignal? ==>
              (Enabled(s, step) <==> step.g < |s.ds| && s.dispatcher == Loop && s.shm.driverPids[step.g] > 0)
    ensures step.DriverCrash? ==>
              (Enabled(s, step) <==> step.g < |s.ds| && !s.ds[step.g].crashed && !s.ds[step.g].pc.Done?)
  {
  }
}
