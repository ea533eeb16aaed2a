/** Every step of a ticket office keeps the global invariant. */
module OfficeSteps {
  import opened Sequences
  import opened Channels
  import opened Domain
  import opened SharedRecord
  import opened Protocol
  import opened Invariants
  import opened Parts

  /** Office k moves to o', and its row of the record, the slots and the queue length follow. */
  predicate Move(s: State, t: State, k: nat, o': OfficePc)
    requires Dimensions(s) && k < |s.os|
  {
    && t == s.(os := s.os[k := o'], shm := t.shm, ticketSlots := t.ticketSlots,
               ticketQ := t.ticketQ, ticketR := t.ticketR)
    && Dimensions(t)
    && t.shm == s.shm.(officePids := s.shm.officePids[k := t.shm.officePids[k]],
                       officeBusy := s.shm.officeBusy[k := t.shm.officeBusy[k]])
    && OfficeRowOk(o', k, t.shm.officePids[k], t.shm.officeBusy[k])
    && t.ticketSlots + |t.ticketQ| + SlotOwed(o') == s.ticketSlots + |s.ticketQ| + SlotOwed(s.os[k])
    && t.ticketSlots >= 0
  }

  /** A move that keeps what the office holds and touches no queue. */
  predicate Work(s: State, t: State, k: nat, o': OfficePc)
    requires Dimensions(s) && k < |s.os|
  {
    Move(s, t, k, o') && t.ticketQ == s.ticketQ && t.ticketR == s.ticketR
    && Selling(o') == Selling(s.os[k]) && OfficeOk(s.ps, o')
  }

  lemma MoveKeeps(cfg: Config, s: State, t: State, k: nat, o': OfficePc)
    requires Inv(cfg, s) && k < |s.os| && Move(s, t, k, o')
    requires TicketChannel(t.ps, t.os, t.ticketQ, t.ticketR)
    ensures Inv(cfg, t)
  {
    SumUpdate(SlotOwed, s.os, k, o');
  }

  lemma OfficeWorks(ps: seq<Party>, os: seq<OfficePc>, q: seq<TicketRequest>, r: seq<TicketResponse>,
                    k: nat, o': OfficePc)
    requires k < |os| && TicketChannel(ps, os, q, r) && Selling(o') == Selling(os[k]) && OfficeOk(ps, o')
    ensures TicketChannel(ps, os[k := o'], q, r)
  {
    ServerWorks(WaitsForTicket, ps, TicketRequestPid, q, Selling, os, TicketResponseKey, r, k, o');
  }

  lemma OfficeTakes(ps: seq<Party>, os: seq<OfficePc>, q: seq<TicketRequest>, r: seq<TicketResponse>,
                    k: nat, o': OfficePc)
    requires k < |os| && q != [] && TicketChannel(ps, os, q, r)
    requires Selling(os[k]) == 0 && (o' == ReleaseSlot(q[0]) || o' == DrainRelease(q[0]))
    ensures TicketChannel(ps, os[k := o'], RemoveAt(q, 0), r)
  {
    assert TicketRequestOk(ps, q[0]);
    ServerTakes(WaitsForTicket, ps, TicketRequestPid, q, Selling, os, TicketResponseKey, r, 0, k, o');
  }

  lemma OfficeAnswers(ps: seq<Party>, os: seq<OfficePc>, q: seq<TicketRequest>, r: seq<TicketResponse>,
                      k: nat, o': OfficePc, m: TicketResponse)
    requires k < |os| && TicketChannel(ps, os, q, r) && Selling(o') == 0 && OfficeOk(ps, o')
    requires match os[k]
             case AnswerTicket(req, approved) => m == TicketAnswer(req.passenger, k, approved)
             case DrainAnswer(req) => m == TicketAnswer(req.passenger, k, false)
             case _ => false
    ensures TicketChannel(ps, os[k := o'], q, r + [m])
  {
    assert OfficeOk(ps, os[k]);
    ServerAnswers(WaitsForTicket, ps, TicketRequestPid, q, Selling, os, TicketResponseKey, r, k, o', m);
  }

  /** What a step of office k may use about the rest of the system. */
  predicate Ready(s: State, k: nat) {
    && Dimensions(s) && k < |s.os| && OfficeEnabled(s, k)
    && OfficeRowOk(s.os[k], k, s.shm.officePids[k], s.shm.officeBusy[k])
    && OfficeOk(s.ps, s.os[k])
    && s.ticketSlots >= 0
  }

  lemma SameRow(m: Shared, k: nat)
    requires k < |m.officePids| == |m.officeBusy|
    ensures m.officePids[k := m.officePids[k]] == m.officePids && m.officeBusy[k := m.officeBusy[k]] == m.officeBusy
  {
  }

  // --- steps that keep the request in hand, one control state each ---

  lemma OpenWorks(s: State, k: nat)
    requires Ready(s, k) && s.os[k].Start?
    ensures var t := OfficeStep(s, k); Work(s, t, k, t.os[k])
  {
    SameRow(s.shm, k);
  }

  lemma CheckWorks(s: State, k: nat)
    requires Ready(s, k) && s.os[k].OfficeCheck?
    ensures var t := OfficeStep(s, k); Work(s, t, k, t.os[k])
  {
    SameRow(s.shm, k);
  }

  lemma ReleaseWorks(s: State, k: nat)
    requires Ready(s, k) && s.os[k].ReleaseSlot? && ValidTicketRequest(s.os[k].req)
    ensures var t := OfficeStep(s, k); Work(s, t, k, t.os[k])
  {
    SameRow(s.shm, k);
  }

  lemma BusyWorks(s: State, k: nat)
    requires Ready(s, k) && s.os[k].MarkBusy?
    ensures var t := OfficeStep(s, k); Work(s, t, k, t.os[k])
  {
    SameRow(s.shm, k);
  }

  lemma FreeWorks(s: State, k: nat)
    requires Ready(s, k) && s.os[k].MarkFree?
    ensures var t := OfficeStep(s, k); Work(s, t, k, t.os[k])
  {
    SameRow(s.shm, k);
  }

  lemma DrainedWorks(s: State, k: nat)
    requires Ready(s, k) && s.os[k].Drain? && s.ticketQ == []
    ensures var t := OfficeStep(s, k); Work(s, t, k, t.os[k])
  {
    SameRow(s.shm, k);
  }

  lemma DrainReleaseWorks(s: State, k: nat)
    requires Ready(s, k) && s.os[k].DrainRelease?
    ensures var t := OfficeStep(s, k); Work(s, t, k, t.os[k])
  {
    SameRow(s.shm, k);
  }

  lemma ExitWorks(s: State, k: nat)
    requires Ready(s, k) && s.os[k].OfficeExit?
    ensures var t := OfficeStep(s, k); Work(s, t, k, t.os[k])
  {
    SameRow(s.shm, k);
  }

  // --- steps that move a message ---

  lemma ReceiveMoves(s: State, k: nat)
    requires Ready(s, k) && (s.os[k].OfficeReceive? || (s.os[k].Drain? && s.ticketQ != []))
    ensures var t := OfficeStep(s, k);
            && Move(s, t, k, t.os[k]) && t.ticketQ == RemoveAt(s.ticketQ, 0) && t.ticketR == s.ticketR
            && (t.os[k] == ReleaseSlot(s.ticketQ[0]) || t.os[k] == DrainRelease(s.ticketQ[0]))
  {
    SameRow(s.shm, k);
  }

  lemma ReceiveKeeps(cfg: Config, s: State, k: nat)
    requires Inv(cfg, s) && Ready(s, k) && (s.os[k].OfficeReceive? || (s.os[k].Drain? && s.ticketQ != []))
    ensures Inv(cfg, OfficeStep(s, k))
  {
    var t := OfficeStep(s, k);
    ReceiveMoves(s, k);
    OfficeTakes(s.ps, s.os, s.ticketQ, s.ticketR, k, t.os[k]);
    MoveKeeps(cfg, s, t, k, t.os[k]);
  }

  lemma AnswerMoves(s: State, k: nat)
    requires Ready(s, k) && (s.os[k].AnswerTicket? || s.os[k].DrainAnswer?)
    ensures var t := OfficeStep(s, k);
            && Move(s, t, k, t.os[k]) && t.ticketQ == s.ticketQ && Selling(t.os[k]) == 0 && OfficeOk(s.ps, t.os[k])
            && t.ticketR == s.ticketR
                 + [TicketAnswer(s.os[k].req.passenger, k, s.os[k].AnswerTicket? && s.os[k].approved)]
  {
    SameRow(s.shm, k);
  }

  lemma AnswerKeeps(cfg: Config, s: State, k: nat)
    requires Inv(cfg, s) && Ready(s, k) && (s.os[k].AnswerTicket? || s.os[k].DrainAnswer?)
    ensures Inv(cfg, OfficeStep(s, k))
  {
    var t := OfficeStep(s, k);
    AnswerMoves(s, k);
    OfficeAnswers(s.ps, s.os, s.ticketQ, s.ticketR, k, t.os[k], t.ticketR[|s.ticketR|]);
    MoveKeeps(cfg, s, t, k, t.os[k]);
  }

  // --- deciding on a request ---

  /** The request in hand passes both validators, so it is never discarded and never denied for bad data. */
  lemma HeldRequestValid(s: State, k: nat)
    requires FlagsOk(s) && PartiesOk(s.ps, s.shm.stationOpen, s.shm.running)
    requires k < |s.os| && OfficeOk(s.ps, s.os[k]) && (s.os[k].ReleaseSlot? || s.os[k].Serve?)
    ensures ValidTicketRequest(s.os[k].req) && ValidPassenger(s.os[k].req.passenger)
    ensures SeatsNeeded(s.os[k].req.passenger) == s.os[k].req.passenger.seatCount
  {
    var i := s.os[k].req.passenger.pid - 1;
    assert PartyOk(s.ps[i], i, s.shm.stationOpen, s.shm.running);
    WellFormedInfoIsAccepted(s.ps[i].info, 0);
  }

  function Bought(p: Party): Party { p.(issued := p.issued + 1, sold := p.sold + p.info.seatCount) }
  function TurnedAway(p: Party): Party { p.(denied := p.denied + 1) }

  lemma DecideChannel(ps: seq<Party>, os: seq<OfficePc>, q: seq<TicketRequest>, r: seq<TicketResponse>,
                      k: nat, i: nat, p': Party, o': OfficePc)
    requires k < |os| && i < |ps| && TicketChannel(ps, os, q, r) && Selling(os[k]) == Selling(o') == i + 1
    requires ps[i].pc.AwaitTicket? && Undecided(ps[i]) && p'.pc == ps[i].pc && p'.info == ps[i].info
    requires match o'
             case AnswerTicket(req, approved) => approved && p' == Bought(ps[i]) && req.passenger == p'.info
             case DrainAnswer(req) => p' == TurnedAway(ps[i]) && req.passenger == p'.info
             case _ => false
    ensures TicketChannel(ps[i := p'], os[k := o'], q, r)
  {
    HeldAlone(WaitsForTicket, ps, TicketRequestPid, q, Selling, os, TicketResponseKey, r, i, k);
    ServerWorks(WaitsForTicket, ps, TicketRequestPid, q, Selling, os, TicketResponseKey, r, k, o');
    ClientMoves(WaitsForTicket, ps, TicketRequestPid, q, Selling, os[k := o'], TicketResponseKey, r, i, p');
  }

  /** Serve issues the ticket and DrainDeny denies it; both change the record, the buyer and the office only. */
  lemma ServeShape(s: State, k: nat)
    requires Ready(s, k) && s.os[k].Serve? && ValidPassenger(s.os[k].req.passenger)
    requires SeatsNeeded(s.os[k].req.passenger) == s.os[k].req.passenger.seatCount
    ensures var i := Selling(s.os[k]) - 1;
            && 0 <= i < |s.ps| && s.ps[i].pc.AwaitTicket? && Undecided(s.ps[i]) && s.ps[i].info == s.os[k].req.passenger
            && OfficeStep(s, k) == s.(os := s.os[k := AnswerTicket(s.os[k].req, true)],
                                      shm := IssueTicket(s.shm, s.ps[i].info), ps := s.ps[i := Bought(s.ps[i])])
  {
  }

  lemma DenyShape(s: State, k: nat)
    requires Ready(s, k) && s.os[k].DrainDeny?
    ensures var i := Selling(s.os[k]) - 1;
            && 0 <= i < |s.ps| && s.ps[i].pc.AwaitTicket? && Undecided(s.ps[i]) && s.ps[i].info == s.os[k].req.passenger
            && OfficeStep(s, k) == s.(os := s.os[k := DrainAnswer(s.os[k].req)],
                                      shm := DenyTicket(s.shm), ps := s.ps[i := TurnedAway(s.ps[i])])
  {
  }

  /** The counters follow the decision, and the buyer's history stays in order. */
  lemma DecisionFollows(m: Shared, p: Party, i: int)
    requires p.pc.AwaitTicket? && Undecided(p) && PartyOk(p, i, m.stationOpen, m.running)
    ensures LedgerDelta(m, IssueTicket(m, p.info), p, Bought(p)) && PartyOk(Bought(p), i, m.stationOpen, m.running)
    ensures LedgerDelta(m, DenyTicket(m), p, TurnedAway(p)) && PartyOk(TurnedAway(p), i, m.stationOpen, m.running)
  {
  }

  /** Parties, counters and boarding channel after the decision. */
  lemma DecisionLedgers(cfg: Config, s: State, m': Shared, i: nat, p': Party)
    requires Inv(cfg, s) && i < |s.ps|
    requires LedgerDelta(s.shm, m', s.ps[i], p') && PartyOk(p', i, s.shm.stationOpen, s.shm.running)
    requires p'.pc == s.ps[i].pc == AwaitTicket && SameRides(s.ps[i], p')
    ensures var ps' := s.ps[i := p'];
            && Ledgers(m', ps') && PartiesOk(ps', s.shm.stationOpen, s.shm.running)
            && BoardingChannel(ps', s.ds, s.boardQ, s.boardR)
  {
    LedgersUpdate(s.shm, m', s.ps, i, p');
    BoardingQuiet(s.ps, s.ds, s.boardQ, s.boardR, i, p');
  }

  /** The rest of the invariant sees only that party i was sold or denied a ticket. */
  lemma DecisionKeeps(cfg: Config, s: State, t: State, i: nat, k: nat, p': Party, o': OfficePc)
    requires Inv(cfg, s) && i < |s.ps| && k < |s.os|
    requires t == s.(os := s.os[k := o'], shm := t.shm, ps := s.ps[i := p'])
    requires t.shm == s.shm.(issued := t.shm.issued, soldPeople := t.shm.soldPeople, denied := t.shm.denied,
                             inOffice := t.shm.inOffice)
    requires LedgerDelta(s.shm, t.shm, s.ps[i], p') && PartyOk(p', i, s.shm.stationOpen, s.shm.running)
    requires p'.pc == s.ps[i].pc == AwaitTicket && SameRides(s.ps[i], p') && SlotOwed(o') == SlotOwed(s.os[k])
    requires OfficeRowOk(o', k, s.shm.officePids[k], s.shm.officeBusy[k])
    requires TicketChannel(t.ps, t.os, t.ticketQ, t.ticketR)
    ensures Inv(cfg, t)
  {
    DecisionLedgers(cfg, s, t.shm, i, p');
    ManifestKept(s.ps, s.shm.buses, s.ds, i, p');
    SumUpdate(SlotOwed, s.os, k, o');
    SamePlaceSameSlots(s.ps, i, p');
  }

  lemma ServeKeeps(cfg: Config, s: State, k: nat)
    requires Inv(cfg, s) && Ready(s, k) && s.os[k].Serve?
    ensures Inv(cfg, OfficeStep(s, k))
  {
    var i := Selling(s.os[k]) - 1;
    HeldRequestValid(s, k);
    ServeShape(s, k);
    DecisionFollows(s.shm, s.ps[i], i);
    DecideChannel(s.ps, s.os, s.ticketQ, s.ticketR, k, i, Bought(s.ps[i]), AnswerTicket(s.os[k].req, true));
    DecisionKeeps(cfg, s, OfficeStep(s, k), i, k, Bought(s.ps[i]), AnswerTicket(s.os[k].req, true));
  }

  lemma DenyKeeps(cfg: Config, s: State, k: nat)
    requires Inv(cfg, s) && Ready(s, k) && s.os[k].DrainDeny?
    ensures Inv(cfg, OfficeStep(s, k))
  {
    var i := Selling(s.os[k]) - 1;
    DenyShape(s, k);
    DecisionFollows(s.shm, s.ps[i], i);
    DecideChannel(s.ps, s.os, s.ticketQ, s.ticketR, k, i, TurnedAway(s.ps[i]), DrainAnswer(s.os[k].req));
    DecisionKeeps(cfg, s, OfficeStep(s, k), i, k, TurnedAway(s.ps[i]), DrainAnswer(s.os[k].req));
  }

  // --- all steps of an office ---

  predicate MovesMessage(s: State, o: OfficePc) {
    o.OfficeReceive? || (o.Drain? && s.ticketQ != []) || o.AnswerTicket? || o.DrainAnswer?
  }

  lemma WorkStep(s: State, k: nat)
    requires Ready(s, k) && !MovesMessage(s, s.os[k]) && !s.os[k].Serve? && !s.os[k].DrainDeny?
    requires s.os[k].ReleaseSlot? ==> ValidTicketRequest(s.os[k].req)
    ensures Work(s, OfficeStep(s, k), k, OfficeStep(s, k).os[k])
  {
    match s.os[k]
    case Start => OpenWorks(s, k);
    case OfficeCheck => CheckWorks(s, k);
    case ReleaseSlot(_) => ReleaseWorks(s, k);
    case MarkBusy(_) => BusyWorks(s, k);
    case MarkFree(_) => FreeWorks(s, k);
    case Drain => DrainedWorks(s, k);
    case DrainRelease(_) => DrainReleaseWorks(s, k);
    case OfficeExit => ExitWorks(s, k);
    case _ =>
  }

  /** Every step of an office that decides on no request is a Move. */
  lemma OfficeMoves(cfg: Config, s: State, k: nat)
    requires Inv(cfg, s) && k < |s.os| && OfficeEnabled(s, k) && !s.os[k].Serve? && !s.os[k].DrainDeny?
    ensures Move(s, OfficeStep(s, k), k, OfficeStep(s, k).os[k])
  {
    if MovesMessage(s, s.os[k]) {
      if s.os[k].AnswerTicket? || s.os[k].DrainAnswer? { AnswerMoves(s, k); } else { ReceiveMoves(s, k); }
    } else {
      if s.os[k].ReleaseSlot? {
        HeldRequestValid(s, k);
      }
      WorkStep(s, k);
    }
  }

  lemma WorkKeeps(cfg: Config, s: State, k: nat)
    requires Inv(cfg, s) && Ready(s, k) && !MovesMessage(s, s.os[k]) && !s.os[k].Serve? && !s.os[k].DrainDeny?
    ensures Inv(cfg, OfficeStep(s, k))
  {
    var t := OfficeStep(s, k);
    if s.os[k].ReleaseSlot? {
      HeldRequestValid(s, k);
    }
    WorkStep(s, k);
    OfficeWorks(s.ps, s.os, s.ticketQ, s.ticketR, k, t.os[k]);
    MoveKeeps(cfg, s, t, k, t.os[k]);
  }

  lemma OfficeKeeps(cfg: Config, s: State, k: nat)
    requires Inv(cfg, s) && k < |s.os| && OfficeEnabled(s, k)
    ensures Inv(cfg, OfficeStep(s, k))
  {
    if MovesMessage(s, s.os[k]) {
      if s.os[k].AnswerTicket? || s.os[k].DrainAnswer? { AnswerKeeps(cfg, s, k); } else { ReceiveKeeps(cfg, s, k); }
    } else if s.os[k].Serve? {
      ServeKeeps(cfg, s, k);
    } else if s.os[k].DrainDeny? {
      DenyKeeps(cfg, s, k);
    } else {
      WorkKeeps(cfg, s, k);
    }
  }
}
