/** Every process comes to its end: a rank that each of its own steps lowers, but for the loops it is meant to go
    round; and the closing frees whoever is blocked at the entrance or for a ticket slot. */
module Progress {
  import opened Sequences
  import opened Domain
  import opened SharedRecord
  import opened Protocol
  import opened Invariants
  import opened Parts
  import opened Reachability
  import opened Frames
  import opened FlowCharts
  import DriverSteps
  import OfficeSteps
  import PartySteps

  // --- ranks ---

  function PartyRank(pc: PartyPc): nat {
    match pc
    case Spawned => 200
    case Arrived => 190
    case WantsTicket => 180
    case AwaitTicketSlot => 170
    case SendTicket => 160
    case AwaitTicket => 150
    case CheckClosed => 140
    case EnterCheck(tries) => if tries <= 10 then 100 - 4 * tries + 3 else 3
    case AwaitEntry(tries) => if tries <= 10 then 100 - 4 * tries + 2 else 2
    case AtEntry(tries) => if tries <= 10 then 100 - 4 * tries + 1 else 1
    case LeaveEntry(tries, _) => if tries <= 10 then 100 - 4 * tries else 0
    case FindBus => 50
    case AwaitBoardSlot(_) => 45
    case SendBoard(_) => 40
    case AwaitBoard => 35
    case BoardAnswered(_, _) => 30
    case BoardCheck => 25
    case LeaveStation => 10
    case NoTicket => 10
    case FoundClosed => 10
    case GivenUp => 10
    case _ => 0
  }

  predicate AtEntrance(pc: PartyPc) { pc.EnterCheck? || pc.AwaitEntry? || pc.AtEntry? || pc.LeaveEntry? }

  lemma EntranceProgress(s: State, i: nat, childFails: bool)
    requires i < |s.ps| && PartyEnabled(s, i) && AtEntrance(s.ps[i].pc) && s.ps[i].pc.tries <= 10
    ensures PartyRank(PartyStep(s, i, childFails).ps[i].pc) < PartyRank(s.ps[i].pc)
  {
    PartyEnters(s, i, childFails);
  }

  lemma ArrivalProgress(s: State, i: nat, childFails: bool)
    requires i < |s.ps| && PartyEnabled(s, i) && !StageOf(s.ps[i].pc).Inside? && !AtEntrance(s.ps[i].pc)
    ensures PartyRank(PartyStep(s, i, childFails).ps[i].pc) < PartyRank(s.ps[i].pc)
  {
    PartyStarts(s, i, childFails);
    PartyBuys(s, i, childFails);
  }

  lemma BoardingProgress(s: State, i: nat, childFails: bool)
    requires i < |s.ps| && PartyEnabled(s, i) && StageOf(s.ps[i].pc).Inside? && !AtEntrance(s.ps[i].pc)
    ensures var pc := s.ps[i].pc; var pc' := PartyStep(s, i, childFails).ps[i].pc;
            PartyRank(pc') < PartyRank(pc) || (pc.BoardCheck? && pc'.FindBus? && s.shm.running)
  {
    PartyBoards(s, i, childFails);
  }

  /** Each step of a party brings it closer to its end, except that it tries again to board as long as the simulation
      runs; so after the shutdown it takes at most 200 more steps. */
  lemma PartyProgress(cfg: Config, s: State, i: nat, childFails: bool)
    requires Inv(cfg, s) && i < |s.ps| && PartyEnabled(s, i)
    ensures var pc := s.ps[i].pc; var pc' := PartyStep(s, i, childFails).ps[i].pc;
            PartyRank(pc') < PartyRank(pc) || (pc.BoardCheck? && pc'.FindBus? && s.shm.running)
  {
    if AtEntrance(s.ps[i].pc) {
      assert PartyOk(s.ps[i], i, s.shm.stationOpen, s.shm.running);
      EntranceProgress(s, i, childFails);
    } else if StageOf(s.ps[i].pc).Inside? {
      BoardingProgress(s, i, childFails);
    } else {
      ArrivalProgress(s, i, childFails);
    }
  }

  function DriverRank(pc: DriverPc): nat {
    match pc
    case Unregistered => 23
    case ReadState => 22
    case DepartCheck(site) => (match site case BeforeReceive => 21 case AfterBoarding => 14 case LoopEnd => 13)
    case Receive => 20
    case Process(_) => 19
    case AwaitDoor(_) => 18
    case AtDoor(_) => 17
    case LeaveDoor(_) => 16
    case Answer(_, _) => 15
    case Switch => 12
    case EntranceClear(last) => if last then 5 else 11
    case Leave(last) => if last then 4 else 10
    case Travelling(last) => if last then 3 else 9
    case Check => 8
    case FinalCheck => 7
    case Exit => 2
    case Done => 0
  }

  lemma RequestProgress(cfg: Config, s: State, g: nat, due: bool)
    requires Dimensions(s) && g < |s.ds| && DriverEnabled(s, g) && AtRequest(s.ds[g].pc)
    ensures DriverRank(DriverStep(cfg, s, g, due).ds[g].pc) < DriverRank(s.ds[g].pc)
  {
    DriverBoards(cfg, s, g, due);
  }

  lemma WayProgress(cfg: Config, s: State, g: nat, due: bool)
    requires Dimensions(s) && g < |s.ds| && DriverEnabled(s, g) && OnTheWay(s.ds[g].pc)
    requires s.ds[g].pc.EntranceClear? ==> s.shm.buses[g].enteringCount == 0
    ensures DriverRank(DriverStep(cfg, s, g, due).ds[g].pc) < DriverRank(s.ds[g].pc)
  {
    DriverTravels(cfg, s, g, due);
  }

  lemma LookProgress(cfg: Config, s: State, g: nat, due: bool)
    requires Dimensions(s) && g < |s.ds| && DriverEnabled(s, g) && !AtRequest(s.ds[g].pc) && !OnTheWay(s.ds[g].pc)
    ensures var pc := s.ds[g].pc; var pc' := DriverStep(cfg, s, g, due).ds[g].pc;
            || DriverRank(pc') < DriverRank(pc)
            || (pc.Check? && pc'.ReadState? && (s.shm.running || (s.shm.stationClosed && s.shm.waiting > 0)))
  {
    if s.ds[g].pc.DepartCheck? { DriverDecides(cfg, s, g, due); } else { DriverLooks(cfg, s, g, due); }
  }

  /** Each step of a driver brings it closer to its end, except that it goes round again as long as the simulation runs
      or a closed station has people waiting: it never waits for its own entrance to clear. */
  lemma DriverProgress(cfg: Config, s: State, g: nat, due: bool)
    requires Inv(cfg, s) && g < |s.ds| && DriverEnabled(s, g)
    ensures var pc := s.ds[g].pc; var pc' := DriverStep(cfg, s, g, due).ds[g].pc;
            || DriverRank(pc') < DriverRank(pc)
            || (pc.Check? && pc'.ReadState? && (s.shm.running || (s.shm.stationClosed && s.shm.waiting > 0)))
  {
    if AtRequest(s.ds[g].pc) {
      RequestProgress(cfg, s, g, due);
    } else if OnTheWay(s.ds[g].pc) {
      assert BusOk(cfg, s.shm.buses[g], s.shm.driverPids[g], s.ds[g]);
      WayProgress(cfg, s, g, due);
    } else {
      LookProgress(cfg, s, g, due);
    }
  }

  function OfficeRank(o: OfficePc): nat {
    match o
    case Start => 16
    case OfficeReceive => 15
    case ReleaseSlot(_) => 14
    case MarkBusy(_) => 13
    case Serve(_) => 12
    case AnswerTicket(_, _) => 11
    case MarkFree(_) => 10
    case OfficeCheck => 9
    case DrainRelease(_) => 5
    case DrainDeny(_) => 4
    case DrainAnswer(_) => 3
    case Drain => 2
    case OfficeExit => 1
    case OfficeDone => 0
  }

  /** Each step of an office brings it closer to its end or shortens the ticket queue, except that it goes on selling
      while the station is open; and it ends only with an empty queue. */
  lemma OfficeProgress(s: State, k: nat)
    requires Dimensions(s) && k < |s.os| && OfficeEnabled(s, k)
    ensures var o := s.os[k]; var t := OfficeStep(s, k);
            || 5 * |t.ticketQ| + OfficeRank(t.os[k]) < 5 * |s.ticketQ| + OfficeRank(o)
            || (o.OfficeCheck? && t.os[k].OfficeReceive? && s.shm.running && !s.shm.stationClosed)
    ensures OfficeStep(s, k).os[k].OfficeExit? ==> s.os[k].Drain? && s.ticketQ == []
  {
    OfficeSells(s, k);
    OfficeDrains(s, k);
    OfficeQueue(s, k);
  }

  lemma OfficeQueue(s: State, k: nat)
    requires Dimensions(s) && k < |s.os| && OfficeEnabled(s, k)
    ensures var o := s.os[k]; var q' := OfficeStep(s, k).ticketQ;
            q' == (if o.OfficeReceive? || (o.Drain? && s.ticketQ != []) then RemoveAt(s.ticketQ, 0) else s.ticketQ)
  {
  }

  // --- what the closing wakes ---

  function EntryTotal(s: State): int { s.entry + Sum(AtEntryLock, s.ps) }

  function TicketTotal(s: State): int {
    s.ticketSlots + Sum(ReservedTicketSlot, s.ps) + |s.ticketQ| + Sum(SlotOwed, s.os)
  }

  /** Once set to 1000, a semaphore and those who hold a part of it never make up less. */
  predicate Freed(s: State) {
    && (s.entryWoken ==> EntryTotal(s) >= WAKE_ALL)
    && (s.ticketsWoken ==> TicketTotal(s) >= WAKE_ALL)
  }

  predicate SameTotals(s: State, t: State) {
    && EntryTotal(t) == EntryTotal(s) && TicketTotal(t) == TicketTotal(s)
    && t.entryWoken == s.entryWoken && t.ticketsWoken == s.ticketsWoken
  }

  lemma MoveTotals(s: State, t: State, i: nat, p': Party)
    requires i < |s.ps| && t.ps == s.ps[i := p'] && t.os == s.os && PartySteps.SlotsFollow(s, t, s.ps[i], p')
    requires t.entryWoken == s.entryWoken && t.ticketsWoken == s.ticketsWoken
    ensures SameTotals(s, t)
  {
    SumUpdate(AtEntryLock, s.ps, i, p');
    SumUpdate(ReservedTicketSlot, s.ps, i, p');
  }

  lemma PartyTotals(cfg: Config, s: State, i: nat, childFails: bool)
    requires Inv(cfg, s) && i < |s.ps| && PartyEnabled(s, i)
    ensures SameTotals(s, PartyStep(s, i, childFails))
  {
    var t := PartyStep(s, i, childFails);
    PartySteps.PartyMoves(cfg, s, i, childFails);
    MoveTotals(s, t, i, t.ps[i]);
  }

  lemma WorkTotals(cfg: Config, s: State, k: nat)
    requires Inv(cfg, s) && k < |s.os| && OfficeEnabled(s, k) && !s.os[k].Serve? && !s.os[k].DrainDeny?
    ensures SameTotals(s, OfficeStep(s, k))
  {
    OfficeSteps.OfficeMoves(cfg, s, k);
    SumUpdate(SlotOwed, s.os, k, OfficeStep(s, k).os[k]);
  }

  lemma DecisionTotals(cfg: Config, s: State, k: nat)
    requires Inv(cfg, s) && k < |s.os| && OfficeEnabled(s, k) && (s.os[k].Serve? || s.os[k].DrainDeny?)
    ensures SameTotals(s, OfficeStep(s, k))
  {
    var i := Selling(s.os[k]) - 1;
    if s.os[k].Serve? {
      OfficeSteps.HeldRequestValid(s, k);
      OfficeSteps.ServeShape(s, k);
      SamePlaceSameSlots(s.ps, i, OfficeSteps.Bought(s.ps[i]));
    } else {
      OfficeSteps.DenyShape(s, k);
      SamePlaceSameSlots(s.ps, i, OfficeSteps.TurnedAway(s.ps[i]));
    }
    SumUpdate(SlotOwed, s.os, k, OfficeStep(s, k).os[k]);
  }

  lemma SeatTotals(cfg: Config, s: State, g: nat, due: bool)
    requires Inv(cfg, s) && g < |s.ds| && DriverEnabled(s, g) && s.ds[g].pc.AtDoor?
    ensures SameTotals(s, DriverStep(cfg, s, g, due))
  {
    var i := Serving(s.ds[g]) - 1;
    DriverSteps.ReadyDriver(cfg, s, g);
    DriverSteps.SeatShape(cfg, s, g, due);
    SamePlaceSameSlots(s.ps, i, DriverSteps.Seated(s.ps[i], RideOn(g, s.ds[g])));
  }

  lemma DriverTotals(cfg: Config, s: State, g: nat, due: bool)
    requires Inv(cfg, s) && g < |s.ds| && DriverEnabled(s, g) && !s.ds[g].pc.AtDoor?
    ensures SameTotals(s, DriverStep(cfg, s, g, due))
  {
    DriverSteps.DriverMoves(cfg, s, g, due);
  }

  lemma WakeTotals(cfg: Config, s: State, step: Step)
    requires Inv(cfg, s) && Enabled(s, step) && Freed(s) && (step.WakeEntryQueue? || step.WakeTicketQueue?)
    ensures Freed(Apply(cfg, s, step))
  {
    SumNonNegative(AtEntryLock, s.ps);
    SumNonNegative(ReservedTicketSlot, s.ps);
    SumNonNegative(SlotOwed, s.os);
  }

  lemma StepFrees(cfg: Config, s: State, step: Step)
    requires Inv(cfg, s) && Enabled(s, step) && Freed(s)
    ensures Freed(Apply(cfg, s, step))
  {
    if step.PartyMove? {
      PartyTotals(cfg, s, step.i, step.childFails);
    } else if step.OfficeMove? {
      if s.os[step.k].Serve? || s.os[step.k].DrainDeny? {
        DecisionTotals(cfg, s, step.k);
      } else {
        WorkTotals(cfg, s, step.k);
      }
    } else if step.DriverMove? {
      if s.ds[step.g].pc.AtDoor? {
        SeatTotals(cfg, s, step.g, step.due);
      } else {
        DriverTotals(cfg, s, step.g, step.due);
      }
    } else if step.WakeEntryQueue? || step.WakeTicketQueue? {
      WakeTotals(cfg, s, step);
    }
  }

  lemma FreedAt(cfg: Config, run: seq<State>, k: nat)
    requires IsRun(cfg, run) && k + 1 < |run| && Freed(run[k])
    ensures Freed(run[k + 1])
  {
    RunStep(cfg, run, k);
    var step :| Enabled(run[k], step) && run[k + 1] == Apply(cfg, run[k], step);
    StepFrees(cfg, run[k], step);
  }

  lemma {:induction false} StaysFreed(cfg: Config, run: seq<State>, k: nat)
    requires IsRun(cfg, run) && k < |run|
    ensures Freed(run[k])
  {
    if k == 0 {
      assert Init(cfg, run[0]);
    } else {
      StaysFreed(cfg, run, k - 1);
      FreedAt(cfg, run, k - 1);
    }
  }

  /** After the closing has reset the semaphore nobody is stopped at the station entrance, up to a thousand parties. */
  lemma EntranceFreed(cfg: Config, run: seq<State>, k: nat, i: nat)
    requires IsRun(cfg, run) && k < |run| && run[k].entryWoken && i < |run[k].ps| <= WAKE_ALL
    requires run[k].ps[i].pc.AwaitEntry?
    ensures PartyEnabled(run[k], i)
  {
    StaysFreed(cfg, run, k);
    SumAllButOne(AtEntryLock, run[k].ps, i);
  }

  /** Nor does anybody wait for a ticket slot while fewer than a thousand requests and reservations are under way. */
  lemma TicketSlotsFreed(cfg: Config, run: seq<State>, k: nat, i: nat)
    requires IsRun(cfg, run) && k < |run| && run[k].ticketsWoken && i < |run[k].ps| && run[k].ps[i].pc.AwaitTicketSlot?
    requires Sum(ReservedTicketSlot, run[k].ps) + |run[k].ticketQ| + Sum(SlotOwed, run[k].os) < WAKE_ALL
    ensures PartyEnabled(run[k], i)
  {
    StaysFreed(cfg, run, k);
  }
}
