/** Tickets, requests and answers: no boarding without a ticket, no message lost, duplicated or misdelivered. */
module Tickets {
  import opened Sequences
  import opened Channels
  import opened Domain
  import opened SharedRecord
  import opened Protocol
  import opened Invariants
  import opened Reachability
  import DriverSteps
  import OfficeSteps

  /** A party that rides, or that a driver is admitting, is a VIP, or exactly one ticket was issued to it before,
      for just its seats. */
  predicate PaidFor(p: Party) {
    if p.info.isVip then p.issued == 0 else p.issued == 1 && p.sold == p.info.seatCount
  }

  lemma PartyPaid(p: Party, i: nat, open: bool, running: bool)
    requires PartyOk(p, i, open, running)
    ensures p.info.hasTicket ==> PaidFor(p)
    ensures Rode(p) || WaitsToBoard(p) ==> p.denied == 0 && p.info.hasTicket
    ensures |p.rides| <= 1 && p.issued + p.denied <= 1
  {
  }

  lemma NoBoardingWithoutTicket(cfg: Config, run: seq<State>, k: nat, i: nat)
    requires IsRun(cfg, run) && k < |run| && i < |run[k].ps|
    ensures var p := run[k].ps[i];
            && (Rode(p) || WaitsToBoard(p) ==> PaidFor(p) && p.denied == 0 && p.info.hasTicket)
            && |p.rides| <= 1 && p.issued + p.denied <= 1
            && (p.info.hasTicket ==> PaidFor(p))
  {
    RunHolds(cfg, run, k);
    PartyPaid(run[k].ps[i], i, run[k].shm.stationOpen, run[k].shm.running);
  }

  /** What a queued boarding request says about its sender is true while it is queued. */
  lemma RequestsAreTruthful(cfg: Config, run: seq<State>, k: nat, j: nat)
    requires IsRun(cfg, run) && k < |run| && j < |run[k].boardQ|
    ensures var m := run[k].boardQ[j];
            && PidOk(run[k].ps, m.passenger.pid)
            && m.passenger == run[k].ps[m.passenger.pid - 1].info
            && m.passenger.hasTicket && PaidFor(run[k].ps[m.passenger.pid - 1]) && !Rode(run[k].ps[m.passenger.pid - 1])
            && (m.mtype == MSG_BOARD_REQUEST_VIP <==> m.passenger.isVip)
  {
    RunHolds(cfg, run, k);
    assert RequestOk(run[k].ps, run[k].boardQ[j]);
    NoBoardingWithoutTicket(cfg, run, k, run[k].boardQ[j].passenger.pid - 1);
  }

  function RodePaidSeats(p: Party): int { When(Rode(p) && !p.info.isVip, p.info.seatCount) }

  lemma SeatsWerePaid(cfg: Config, s: State)
    requires Inv(cfg, s)
    ensures s.shm.boarded - s.shm.boardedVip <= s.shm.soldPeople
  {
    forall i | 0 <= i < |s.ps|
      ensures RodeSeats(s.ps[i]) == RodeVipSeats(s.ps[i]) + RodePaidSeats(s.ps[i])
      ensures RodePaidSeats(s.ps[i]) <= SoldSeats(s.ps[i])
    {
      assert PartyOk(s.ps[i], i, s.shm.stationOpen, s.shm.running);
    }
    SumSplit(RodeSeats, RodeVipSeats, RodePaidSeats, s.ps);
    SumMonotone(RodePaidSeats, SoldSeats, s.ps);
  }

  /** In every state of every run the paying people on board were sold a seat. */
  lemma SalesCoverBoarding(cfg: Config, run: seq<State>, k: nat)
    requires IsRun(cfg, run) && k < |run|
    ensures var m := run[k].shm; m.boarded - m.boardedVip <= m.soldPeople
  {
    RunHolds(cfg, run, k);
    SeatsWerePaid(cfg, run[k]);
  }

  /** It has joined the ticket office, now or before. */
  function Visits(p: Party): int { When(Counted(p) && !p.info.isVip && !p.pc.WantsTicket?, 1) }

  function Decided(p: Party): int { IssuedTickets(p) + DeniedTickets(p) }

  lemma OneOutcome(p: Party, i: nat, open: bool, running: bool)
    requires PartyOk(p, i, open, running)
    ensures Visits(p) == Decided(p) + InOffice(p)
  {
  }

  /** Every party that joined the office is in it, or was issued one ticket, or was denied one: so in every state
      tickets issued, tickets denied and open visits add up to the parties that joined. */
  lemma VisitsAccounted(cfg: Config, run: seq<State>, k: nat)
    requires IsRun(cfg, run) && k < |run|
    ensures var m := run[k].shm; m.issued + m.denied + m.inOffice == Sum(Visits, run[k].ps)
  {
    var s := run[k];
    RunHolds(cfg, run, k);
    forall i | 0 <= i < |s.ps| ensures Visits(s.ps[i]) == Decided(s.ps[i]) + InOffice(s.ps[i]) {
      assert PartyOk(s.ps[i], i, s.shm.stationOpen, s.shm.running);
      OneOutcome(s.ps[i], i, s.shm.stationOpen, s.shm.running);
    }
    SumSplit(Visits, Decided, InOffice, s.ps);
    SumSplit(Decided, IssuedTickets, DeniedTickets, s.ps);
  }

  // --- no request is lost ---

  /** Every queued request passes its validator, so neither drivers nor offices ever discard one. */
  lemma NothingDiscarded(cfg: Config, run: seq<State>, k: nat)
    requires IsRun(cfg, run) && k < |run|
    ensures forall j :: 0 <= j < |run[k].boardQ| ==> ValidBoardingRequest(run[k].boardQ[j])
    ensures forall j :: 0 <= j < |run[k].os| && (run[k].os[j].ReleaseSlot? || run[k].os[j].Serve?) ==>
              ValidTicketRequest(run[k].os[j].req) && ValidPassenger(run[k].os[j].req.passenger)
  {
    RunHolds(cfg, run, k);
    forall j | 0 <= j < |run[k].boardQ| ensures ValidBoardingRequest(run[k].boardQ[j]) {
      DriverSteps.QueuedRequestValid(run[k], j);
    }
    forall j | 0 <= j < |run[k].os| && (run[k].os[j].ReleaseSlot? || run[k].os[j].Serve?)
      ensures ValidTicketRequest(run[k].os[j].req) && ValidPassenger(run[k].os[j].req.passenger)
    {
      OfficeSteps.HeldRequestValid(run[k], j);
    }
  }

  /** A working driver refuses a party only for want of seats or of bike space. */
  lemma DeniedOnlyForRoom(cfg: Config, run: seq<State>, k: nat, g: nat)
    requires IsRun(cfg, run) && k < |run| && g < |run[k].ds| && run[k].ds[g].pc.Process? && !run[k].ds[g].crashed
    ensures Dimensions(run[k])
    ensures var req := run[k].ds[g].pc.req; var b := run[k].shm.buses[g];
            CanBoard(cfg, run[k].shm, g, req.passenger) ==
              (if b.passengerCount + req.passenger.seatCount > cfg.seats then NotEnoughSeats
               else if req.passenger.hasBike && b.bikeCount >= cfg.bikes then BikesFull
               else Admitted)
  {
    var s := run[k];
    RunHolds(cfg, run, k);
    var i := s.ds[g].pc.req.passenger.pid - 1;
    assert HeldOk(s.ps, s.ds[g], g) && BusOk(cfg, s.shm.buses[g], s.shm.driverPids[g], s.ds[g]);
    assert PartyOk(s.ps[i], i, s.shm.stationOpen, s.shm.running);
  }

  // --- one message each, delivered to its sender ---

  /** The answer a party receives is the answer to its own current request: it carries the party's own data,
      it was approved exactly if the party is seated, and it is the only message about the party anywhere. */
  lemma AnswersMatch(cfg: Config, run: seq<State>, k: nat, i: nat, j: nat)
    requires IsRun(cfg, run) && k < |run| && i < |run[k].ps| && j < |run[k].boardR|
    requires run[k].boardR[j].mtype == run[k].ps[i].info.pid
    ensures var s := run[k]; var p := s.ps[i]; var r := s.boardR[j];
            && WaitsToBoard(p) && r.passenger == p.info
            && (r.approved <==> Rode(p)) && (r.approved ==> p.rides[0].bus == r.busId)
            && NoneIn(BoardingRequestPid, s.boardQ, i + 1) && NoneIn(Serving, s.ds, i + 1)
            && OnlyIn(BoardingResponseKey, s.boardR, i + 1, j)
  {
    var s := run[k];
    RunHolds(cfg, run, k);
    assert PartyOk(s.ps[i], i, s.shm.stationOpen, s.shm.running);
    assert ResponseOk(s.ps, s.boardR[j]);
    AnsweredAlone(WaitsToBoard, s.ps, BoardingRequestPid, s.boardQ, Serving, s.ds, BoardingResponseKey, s.boardR, i, j);
  }

  /** The same at the ticket office: the answer is the party's own, and it says whether a ticket was issued to it. */
  lemma TicketAnswersMatch(cfg: Config, run: seq<State>, k: nat, i: nat, j: nat)
    requires IsRun(cfg, run) && k < |run| && i < |run[k].ps| && j < |run[k].ticketR|
    requires run[k].ticketR[j].mtype == run[k].ps[i].info.pid
    ensures var s := run[k]; var p := s.ps[i]; var r := s.ticketR[j];
            && WaitsForTicket(p) && r.passenger == p.info.(hasTicket := r.approved)
            && (r.approved <==> p.issued == 1) && (!r.approved <==> p.denied == 1)
            && NoneIn(TicketRequestPid, s.ticketQ, i + 1) && NoneIn(Selling, s.os, i + 1)
            && OnlyIn(TicketResponseKey, s.ticketR, i + 1, j)
  {
    var s := run[k];
    RunHolds(cfg, run, k);
    assert PartyOk(s.ps[i], i, s.shm.stationOpen, s.shm.running);
    assert SaleResponseOk(s.ps, s.ticketR[j]);
    AnsweredAlone(WaitsForTicket, s.ps, TicketRequestPid, s.ticketQ, Selling, s.os, TicketResponseKey, s.ticketR, i, j);
  }

  /** A waiting party has exactly one message, a party that does not wait has none: none is lost or duplicated. */
  lemma OneMessageEach(cfg: Config, run: seq<State>, k: nat, i: nat)
    requires IsRun(cfg, run) && k < |run| && i < |run[k].ps|
    ensures var s := run[k];
            && Tokens(BoardingRequestPid, s.boardQ, Serving, s.ds, BoardingResponseKey, s.boardR, i + 1)
                 == (if s.ps[i].pc.AwaitBoard? then 1 else 0)
            && Tokens(TicketRequestPid, s.ticketQ, Selling, s.os, TicketResponseKey, s.ticketR, i + 1)
                 == (if s.ps[i].pc.AwaitTicket? then 1 else 0)
  {
    var s := run[k];
    RunHolds(cfg, run, k);
    assert MatchedAt(WaitsToBoard, s.ps, BoardingRequestPid, s.boardQ, Serving, s.ds, BoardingResponseKey, s.boardR, i);
    assert MatchedAt(WaitsForTicket, s.ps, TicketRequestPid, s.ticketQ, Selling, s.os, TicketResponseKey, s.ticketR, i);
  }

  /** Boarding flow control: slots and holders add up to the limit, so requests, answers and requests in service
      together never exceed it. */
  lemma BoardingBounded(cfg: Config, run: seq<State>, k: nat)
    requires IsRun(cfg, run) && k < |run|
    ensures var s := run[k];
            && s.boardSlots + Sum(HoldsBoardSlot, s.ps) == cfg.boardingLimit && s.boardSlots >= 0
            && |s.boardQ| + Sum(InService, s.ds) + |s.boardR| <= cfg.boardingLimit
  {
    RunHolds(cfg, run, k);
    SumMonotone(AwaitsBoarding, HoldsBoardSlot, run[k].ps);
  }

  /** Ticket flow control, until the closing resets the semaphore: slots, reservations, queued requests and
      removed requests whose slot is still owed add up to the limit, so the queue never exceeds it. */
  lemma TicketsBounded(cfg: Config, run: seq<State>, k: nat)
    requires IsRun(cfg, run) && k < |run| && !run[k].ticketsWoken
    ensures var s := run[k];
            && s.ticketSlots + Sum(ReservedTicketSlot, s.ps) + |s.ticketQ| + Sum(SlotOwed, s.os) == cfg.ticketLimit
            && s.ticketSlots >= 0 && |s.ticketQ| <= cfg.ticketLimit
  {
    RunHolds(cfg, run, k);
    SumNonNegative(ReservedTicketSlot, run[k].ps);
    SumNonNegative(SlotOwed, run[k].os);
  }
}
