/** Every step of a passenger party keeps the global invariant. */
module PartySteps {
  import opened Sequences
  import opened Channels
  import opened Domain
  import opened SharedRecord
  import opened Protocol
  import opened Invariants
  import opened Parts

  predicate OnlyCounters(m: Shared, m': Shared) {
    m' == m.(created := m'.created, adults := m'.adults, children := m'.children, vipCreated := m'.vipCreated,
             inOffice := m'.inOffice, waiting := m'.waiting, leftEarly := m'.leftEarly)
  }

  /** Semaphores and queue lengths follow the party. */
  predicate SlotsFollow(s: State, t: State, p: Party, p': Party) {
    && t.entry == s.entry + AtEntryLock(p) - AtEntryLock(p') && t.entry >= 0
    && t.ticketSlots + |t.ticketQ| == s.ticketSlots + |s.ticketQ| + ReservedTicketSlot(p) - ReservedTicketSlot(p')
    && t.ticketSlots >= 0
    && t.boardSlots == s.boardSlots + HoldsBoardSlot(p) - HoldsBoardSlot(p') && t.boardSlots >= 0
    && |t.boardQ| + |t.boardR| == |s.boardQ| + |s.boardR| - AwaitsBoarding(p) + AwaitsBoarding(p')
  }

  /** One party moves from p to p', and counters, semaphores and queue lengths follow it. */
  predicate Move(s: State, t: State, i: nat, p': Party)
    requires i < |s.ps|
  {
    var p := s.ps[i];
    && t == s.(ps := s.ps[i := p'], shm := t.shm, entry := t.entry, ticketSlots := t.ticketSlots,
               boardSlots := t.boardSlots, ticketQ := t.ticketQ, ticketR := t.ticketR,
               boardQ := t.boardQ, boardR := t.boardR)
    && OnlyCounters(s.shm, t.shm) && LedgerDelta(s.shm, t.shm, p, p')
    && PartyOk(p', i, s.shm.stationOpen, s.shm.running)
    && SameRides(p, p')
    && SlotsFollow(s, t, p, p')
  }

  /** A move that concerns neither message channel. */
  predicate QuietMove(s: State, t: State, i: nat, p': Party)
    requires i < |s.ps|
  {
    && Move(s, t, i, p')
    && t.ticketQ == s.ticketQ && t.ticketR == s.ticketR && t.boardQ == s.boardQ && t.boardR == s.boardR
    && !WaitsToBoard(s.ps[i]) && !WaitsToBoard(p') && !WaitsForTicket(s.ps[i]) && !WaitsForTicket(p')
  }

  lemma FlowsFollow(cfg: Config, s: State, t: State, i: nat, p': Party)
    requires i < |s.ps| && t.ps == s.ps[i := p'] && t.ds == s.ds && t.os == s.os && SlotsFollow(s, t, s.ps[i], p')
    requires t.entryWoken == s.entryWoken && t.ticketsWoken == s.ticketsWoken
    requires EntryFlow(s.entry, s.entryWoken, s.ps)
    requires TicketFlow(cfg, s.ticketSlots, s.ticketsWoken, s.ps, s.os, s.ticketQ)
    requires BoardingFlow(cfg, s.boardSlots, s.ps, s.ds, s.boardQ, s.boardR)
    ensures EntryFlow(t.entry, t.entryWoken, t.ps)
    ensures TicketFlow(cfg, t.ticketSlots, t.ticketsWoken, t.ps, t.os, t.ticketQ)
    ensures BoardingFlow(cfg, t.boardSlots, t.ps, t.ds, t.boardQ, t.boardR)
  {
    SumUpdate(AtEntryLock, s.ps, i, p');
    SumUpdate(ReservedTicketSlot, s.ps, i, p');
    SumUpdate(HoldsBoardSlot, s.ps, i, p');
    SumUpdate(AwaitsBoarding, s.ps, i, p');
  }

  lemma MoveKeeps(cfg: Config, s: State, t: State, i: nat, p': Party)
    requires Inv(cfg, s) && i < |s.ps| && Move(s, t, i, p')
    requires BoardingChannel(t.ps, t.ds, t.boardQ, t.boardR) && TicketChannel(t.ps, t.os, t.ticketQ, t.ticketR)
    ensures Inv(cfg, t)
  {
    LedgersUpdate(s.shm, t.shm, s.ps, i, p');
    FlowsFollow(cfg, s, t, i, p');
    ManifestKept(s.ps, s.shm.buses, s.ds, i, p');
  }

  lemma QuietKeeps(cfg: Config, s: State, t: State, i: nat, p': Party)
    requires Inv(cfg, s) && i < |s.ps| && QuietMove(s, t, i, p')
    ensures Inv(cfg, t)
  {
    BoardingQuiet(s.ps, s.ds, s.boardQ, s.boardR, i, p');
    TicketQuiet(s.ps, s.os, s.ticketQ, s.ticketR, i, p');
    MoveKeeps(cfg, s, t, i, p');
  }

  /** What a step of party i may use about the rest of the system. */
  predicate Ready(s: State, i: nat) {
    && i < |s.ps| && PartyEnabled(s, i)
    && PartyOk(s.ps[i], i, s.shm.stationOpen, s.shm.running) && FlagsOk(s)
    && s.entry >= 0 && s.ticketSlots >= 0 && s.boardSlots >= 0
    && s.shm.waiting >= WaitingSeats(s.ps[i])
  }

  // --- the steps that move no message, one control state each ---

  lemma ArrivalCheckQuiet(s: State, i: nat, childFails: bool)
    requires Ready(s, i) && s.ps[i].pc.Spawned?
    ensures var t := PartyStep(s, i, childFails); QuietMove(s, t, i, t.ps[i])
  {
  }

  lemma CreationQuiet(s: State, i: nat, childFails: bool)
    requires Ready(s, i) && s.ps[i].pc.Arrived?
    ensures var t := PartyStep(s, i, childFails); QuietMove(s, t, i, t.ps[i])
  {
  }

  lemma JoinOfficeQuiet(s: State, i: nat, childFails: bool)
    requires Ready(s, i) && s.ps[i].pc.WantsTicket?
    ensures var t := PartyStep(s, i, childFails); QuietMove(s, t, i, t.ps[i])
  {
  }

  lemma TicketSlotQuiet(s: State, i: nat, childFails: bool)
    requires Ready(s, i) && s.ps[i].pc.AwaitTicketSlot?
    ensures var t := PartyStep(s, i, childFails); QuietMove(s, t, i, t.ps[i])
  {
  }

  lemma NoTicketQuiet(s: State, i: nat, childFails: bool)
    requires Ready(s, i) && s.ps[i].pc.NoTicket?
    ensures var t := PartyStep(s, i, childFails); QuietMove(s, t, i, t.ps[i])
  {
  }

  lemma CheckClosedQuiet(s: State, i: nat, childFails: bool)
    requires Ready(s, i) && s.ps[i].pc.CheckClosed?
    ensures var t := PartyStep(s, i, childFails); QuietMove(s, t, i, t.ps[i])
  {
  }

  lemma FoundClosedQuiet(s: State, i: nat, childFails: bool)
    requires Ready(s, i) && s.ps[i].pc.FoundClosed?
    ensures var t := PartyStep(s, i, childFails); QuietMove(s, t, i, t.ps[i])
  {
  }

  lemma EnterCheckQuiet(s: State, i: nat, childFails: bool)
    requires Ready(s, i) && s.ps[i].pc.EnterCheck?
    ensures var t := PartyStep(s, i, childFails); QuietMove(s, t, i, t.ps[i])
  {
  }

  lemma EntryLockQuiet(s: State, i: nat, childFails: bool)
    requires Ready(s, i) && s.ps[i].pc.AwaitEntry?
    ensures var t := PartyStep(s, i, childFails); QuietMove(s, t, i, t.ps[i])
  {
  }

  lemma EnterQuiet(s: State, i: nat, childFails: bool)
    requires Ready(s, i) && s.ps[i].pc.AtEntry?
    ensures var t := PartyStep(s, i, childFails); QuietMove(s, t, i, t.ps[i])
  {
  }

  lemma EntryUnlockQuiet(s: State, i: nat, childFails: bool)
    requires Ready(s, i) && s.ps[i].pc.LeaveEntry?
    ensures var t := PartyStep(s, i, childFails); QuietMove(s, t, i, t.ps[i])
  {
  }

  lemma GivenUpQuiet(s: State, i: nat, childFails: bool)
    requires Ready(s, i) && s.ps[i].pc.GivenUp?
    ensures var t := PartyStep(s, i, childFails); QuietMove(s, t, i, t.ps[i])
  {
  }

  lemma BoardCheckQuiet(s: State, i: nat, childFails: bool)
    requires Ready(s, i) && s.ps[i].pc.BoardCheck?
    ensures var t := PartyStep(s, i, childFails); QuietMove(s, t, i, t.ps[i])
  {
  }

  lemma FindBusQuiet(s: State, i: nat, childFails: bool)
    requires Ready(s, i) && s.ps[i].pc.FindBus?
    ensures var t := PartyStep(s, i, childFails); QuietMove(s, t, i, t.ps[i])
  {
  }

  lemma BoardSlotQuiet(s: State, i: nat, childFails: bool)
    requires Ready(s, i) && s.ps[i].pc.AwaitBoardSlot?
    ensures var t := PartyStep(s, i, childFails); QuietMove(s, t, i, t.ps[i])
  {
  }

  lemma BoardAnsweredQuiet(s: State, i: nat, childFails: bool)
    requires Ready(s, i) && s.ps[i].pc.BoardAnswered?
    ensures var t := PartyStep(s, i, childFails); QuietMove(s, t, i, t.ps[i])
  {
  }

  lemma AbandonQuiet(s: State, i: nat, childFails: bool)
    requires Ready(s, i) && s.ps[i].pc.LeaveStation?
    ensures var t := PartyStep(s, i, childFails); QuietMove(s, t, i, t.ps[i])
  {
  }

  // --- the four steps that move a message ---

  lemma SendTicketMoves(s: State, i: nat, childFails: bool)
    requires Ready(s, i) && s.ps[i].pc.SendTicket?
    ensures var t := PartyStep(s, i, childFails); Move(s, t, i, t.ps[i])
  {
  }

  lemma AwaitTicketMoves(s: State, i: nat, childFails: bool)
    requires Ready(s, i) && s.ps[i].pc.AwaitTicket?
    requires forall k :: 0 <= k < |s.ticketR| ==> SaleResponseOk(s.ps, s.ticketR[k])
    ensures var t := PartyStep(s, i, childFails); Move(s, t, i, t.ps[i])
  {
    var k := FirstWith(TicketResponseKey, s.ticketR, s.ps[i].info.pid);
    assert SaleResponseOk(s.ps, s.ticketR[k]);
  }

  lemma SendBoardMoves(s: State, i: nat, childFails: bool)
    requires Ready(s, i) && s.ps[i].pc.SendBoard?
    ensures var t := PartyStep(s, i, childFails); Move(s, t, i, t.ps[i])
  {
  }

  lemma AwaitBoardMoves(s: State, i: nat, childFails: bool)
    requires Ready(s, i) && s.ps[i].pc.AwaitBoard?
    requires forall k :: 0 <= k < |s.boardR| ==> ResponseOk(s.ps, s.boardR[k])
    ensures var t := PartyStep(s, i, childFails); Move(s, t, i, t.ps[i])
  {
    var k := FirstWith(BoardingResponseKey, s.boardR, s.ps[i].info.pid);
    assert ResponseOk(s.ps, s.boardR[k]);
  }

  lemma TicketSent(ps: seq<Party>, os: seq<OfficePc>, q: seq<TicketRequest>, r: seq<TicketResponse>, i: nat, p': Party)
    requires i < |ps| && TicketChannel(ps, os, q, r)
    requires ps[i].pc.SendTicket? && p' == ps[i].(pc := AwaitTicket) && p'.info.pid == i + 1 && Undecided(p')
    ensures TicketChannel(ps[i := p'], os, q + [TicketRequest(MSG_TICKET_REQUEST, p'.info)], r)
  {
    var m := TicketRequest(MSG_TICKET_REQUEST, p'.info);
    Silent(WaitsForTicket, ps, TicketRequestPid, q, Selling, os, TicketResponseKey, r, i);
    TicketOthers(ps, os, q, r, i, p');
    ClientSends(WaitsForTicket, ps, TicketRequestPid, q, Selling, os, TicketResponseKey, r, i, p', m);
  }

  lemma TicketAnswered(ps: seq<Party>, os: seq<OfficePc>, q: seq<TicketRequest>, r: seq<TicketResponse>,
                       i: nat, p': Party, k: nat)
    requires i < |ps| && k < |r| && TicketChannel(ps, os, q, r)
    requires WaitsForTicket(ps[i]) && !WaitsForTicket(p') && r[k].mtype == i + 1
    ensures TicketChannel(ps[i := p'], os, q, RemoveAt(r, k))
  {
    AnsweredAlone(WaitsForTicket, ps, TicketRequestPid, q, Selling, os, TicketResponseKey, r, i, k);
    TicketOthers(ps, os, q, RemoveAt(r, k), i, p');
    ClientReceives(WaitsForTicket, ps, TicketRequestPid, q, Selling, os, TicketResponseKey, r, i, p', k);
  }

  lemma BoardSent(ps: seq<Party>, ds: seq<Driver>, q: seq<BoardingRequest>, r: seq<BoardingResponse>,
                  i: nat, p': Party, bus: int)
    requires i < |ps| && BoardingChannel(ps, ds, q, r)
    requires ps[i].pc.SendBoard? && p' == ps[i].(pc := AwaitBoard) && p'.info.pid == i + 1 && p'.rides == []
    ensures BoardingChannel(ps[i := p'], ds, q + [BoardingRequest(RequestType(p'.info), p'.info, bus)], r)
  {
    var m := BoardingRequest(RequestType(p'.info), p'.info, bus);
    Silent(WaitsToBoard, ps, BoardingRequestPid, q, Serving, ds, BoardingResponseKey, r, i);
    BoardingOthers(ps, ds, q, r, i, p');
    ClientSends(WaitsToBoard, ps, BoardingRequestPid, q, Serving, ds, BoardingResponseKey, r, i, p', m);
  }

  lemma BoardAnsweredTo(ps: seq<Party>, ds: seq<Driver>, q: seq<BoardingRequest>, r: seq<BoardingResponse>,
                        i: nat, p': Party, k: nat)
    requires i < |ps| && k < |r| && BoardingChannel(ps, ds, q, r)
    requires WaitsToBoard(ps[i]) && !WaitsToBoard(p') && r[k].mtype == i + 1
    ensures BoardingChannel(ps[i := p'], ds, q, RemoveAt(r, k))
  {
    AnsweredAlone(WaitsToBoard, ps, BoardingRequestPid, q, Serving, ds, BoardingResponseKey, r, i, k);
    BoardingOthers(ps, ds, q, RemoveAt(r, k), i, p');
    ClientReceives(WaitsToBoard, ps, BoardingRequestPid, q, Serving, ds, BoardingResponseKey, r, i, p', k);
  }

  lemma SendTicketKeeps(cfg: Config, s: State, i: nat, childFails: bool)
    requires Inv(cfg, s) && Ready(s, i) && s.ps[i].pc.SendTicket?
    ensures Inv(cfg, PartyStep(s, i, childFails))
  {
    var t := PartyStep(s, i, childFails);
    var p' := t.ps[i];
    SendTicketMoves(s, i, childFails);
    TicketSent(s.ps, s.os, s.ticketQ, s.ticketR, i, p');
    BoardingQuiet(s.ps, s.ds, s.boardQ, s.boardR, i, p');
    MoveKeeps(cfg, s, t, i, p');
  }

  lemma AwaitTicketKeeps(cfg: Config, s: State, i: nat, childFails: bool)
    requires Inv(cfg, s) && Ready(s, i) && s.ps[i].pc.AwaitTicket?
    ensures Inv(cfg, PartyStep(s, i, childFails))
  {
    var t := PartyStep(s, i, childFails);
    var p' := t.ps[i];
    AwaitTicketMoves(s, i, childFails);
    TicketAnswered(s.ps, s.os, s.ticketQ, s.ticketR, i, p', FirstWith(TicketResponseKey, s.ticketR, s.ps[i].info.pid));
    BoardingQuiet(s.ps, s.ds, s.boardQ, s.boardR, i, p');
    MoveKeeps(cfg, s, t, i, p');
  }

  lemma SendBoardKeeps(cfg: Config, s: State, i: nat, childFails: bool)
    requires Inv(cfg, s) && Ready(s, i) && s.ps[i].pc.SendBoard?
    ensures Inv(cfg, PartyStep(s, i, childFails))
  {
    var t := PartyStep(s, i, childFails);
    var p' := t.ps[i];
    SendBoardMoves(s, i, childFails);
    BoardSent(s.ps, s.ds, s.boardQ, s.boardR, i, p', s.ps[i].pc.bus);
    TicketQuiet(s.ps, s.os, s.ticketQ, s.ticketR, i, p');
    MoveKeeps(cfg, s, t, i, p');
  }

  lemma AwaitBoardKeeps(cfg: Config, s: State, i: nat, childFails: bool)
    requires Inv(cfg, s) && Ready(s, i) && s.ps[i].pc.AwaitBoard?
    ensures Inv(cfg, PartyStep(s, i, childFails))
  {
    var t := PartyStep(s, i, childFails);
    var p' := t.ps[i];
    AwaitBoardMoves(s, i, childFails);
    BoardAnsweredTo(s.ps, s.ds, s.boardQ, s.boardR, i, p', FirstWith(BoardingResponseKey, s.boardR, s.ps[i].info.pid));
    TicketQuiet(s.ps, s.os, s.ticketQ, s.ticketR, i, p');
    MoveKeeps(cfg, s, t, i, p');
  }

  lemma ReadyParty(cfg: Config, s: State, i: nat)
    requires Inv(cfg, s) && i < |s.ps| && PartyEnabled(s, i)
    ensures Ready(s, i)
  {
    assert PartyOk(s.ps[i], i, s.shm.stationOpen, s.shm.running);
    WaitingCovers(s.shm, s.ps, i);
  }

  lemma QuietStep(s: State, i: nat, childFails: bool)
    requires Ready(s, i)
    requires !s.ps[i].pc.SendTicket? && !s.ps[i].pc.AwaitTicket? && !s.ps[i].pc.SendBoard? && !s.ps[i].pc.AwaitBoard?
    ensures QuietMove(s, PartyStep(s, i, childFails), i, PartyStep(s, i, childFails).ps[i])
  {
    match s.ps[i].pc
    case Spawned => ArrivalCheckQuiet(s, i, childFails);
    case Arrived => CreationQuiet(s, i, childFails);
    case WantsTicket => JoinOfficeQuiet(s, i, childFails);
    case AwaitTicketSlot => TicketSlotQuiet(s, i, childFails);
    case NoTicket => NoTicketQuiet(s, i, childFails);
    case CheckClosed => CheckClosedQuiet(s, i, childFails);
    case FoundClosed => FoundClosedQuiet(s, i, childFails);
    case EnterCheck(_) => EnterCheckQuiet(s, i, childFails);
    case AwaitEntry(_) => EntryLockQuiet(s, i, childFails);
    case AtEntry(_) => EnterQuiet(s, i, childFails);
    case LeaveEntry(_, _) => EntryUnlockQuiet(s, i, childFails);
    case GivenUp => GivenUpQuiet(s, i, childFails);
    case BoardCheck => BoardCheckQuiet(s, i, childFails);
    case FindBus => FindBusQuiet(s, i, childFails);
    case AwaitBoardSlot(_) => BoardSlotQuiet(s, i, childFails);
    case BoardAnswered(_, _) => BoardAnsweredQuiet(s, i, childFails);
    case LeaveStation => AbandonQuiet(s, i, childFails);
    case _ =>
  }

  /** Every step of a party is a Move. */
  lemma PartyMoves(cfg: Config, s: State, i: nat, childFails: bool)
    requires Inv(cfg, s) && i < |s.ps| && PartyEnabled(s, i)
    ensures Move(s, PartyStep(s, i, childFails), i, PartyStep(s, i, childFails).ps[i])
  {
    ReadyParty(cfg, s, i);
    match s.ps[i].pc
    case SendTicket => SendTicketMoves(s, i, childFails);
    case AwaitTicket => AwaitTicketMoves(s, i, childFails);
    case SendBoard(_) => SendBoardMoves(s, i, childFails);
    case AwaitBoard => AwaitBoardMoves(s, i, childFails);
    case _ => QuietStep(s, i, childFails);
  }

  lemma QuietStepKeeps(cfg: Config, s: State, i: nat, childFails: bool)
    requires Inv(cfg, s) && Ready(s, i)
    requires !s.ps[i].pc.SendTicket? && !s.ps[i].pc.AwaitTicket? && !s.ps[i].pc.SendBoard? && !s.ps[i].pc.AwaitBoard?
    ensures Inv(cfg, PartyStep(s, i, childFails))
  {
    QuietStep(s, i, childFails);
    QuietKeeps(cfg, s, PartyStep(s, i, childFails), i, PartyStep(s, i, childFails).ps[i]);
  }

  lemma PartyKeeps(cfg: Config, s: State, i: nat, childFails: bool)
    requires Inv(cfg, s) && i < |s.ps| && PartyEnabled(s, i)
    ensures Inv(cfg, PartyStep(s, i, childFails))
  {
    ReadyParty(cfg, s, i);
    match s.ps[i].pc
    case SendTicket => SendTicketKeeps(cfg, s, i, childFails);
    case AwaitTicket => AwaitTicketKeeps(cfg, s, i, childFails);
    case SendBoard(_) => SendBoardKeeps(cfg, s, i, childFails);
    case AwaitBoard => AwaitBoardKeeps(cfg, s, i, childFails);
    case _ => QuietStepKeeps(cfg, s, i, childFails);
  }
}
