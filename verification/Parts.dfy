/** How each part of the invariant moves when one party, driver, office or message changes. */
module Parts {
  import opened Sequences
  import opened Channels
  import opened Domain
  import opened SharedRecord
  import opened Protocol
  import opened Invariants

  // --- ledgers ---

  /** The counters move exactly as the changed party's contributions to them. */
  predicate LedgerDelta(m: Shared, m': Shared, p: Party, p': Party) {
    && m'.created == m.created - CreatedSeats(p) + CreatedSeats(p')
    && m'.adults == m.adults - CreatedAdults(p) + CreatedAdults(p')
    && m'.children == m.children - CreatedChildren(p) + CreatedChildren(p')
    && m'.vipCreated == m.vipCreated - CreatedVip(p) + CreatedVip(p')
    && m'.inOffice == m.inOffice - InOffice(p) + InOffice(p')
    && m'.issued == m.issued - IssuedTickets(p) + IssuedTickets(p')
    && m'.soldPeople == m.soldPeople - SoldSeats(p) + SoldSeats(p')
    && m'.denied == m.denied - DeniedTickets(p) + DeniedTickets(p')
    && m'.waiting == m.waiting - WaitingSeats(p) + WaitingSeats(p')
    && m'.leftEarly == m.leftEarly - LeftSeats(p) + LeftSeats(p')
    && m'.boarded == m.boarded - RodeSeats(p) + RodeSeats(p')
    && m'.boardedVip == m.boardedVip - RodeVipSeats(p) + RodeVipSeats(p')
  }

  lemma LedgersUpdate(m: Shared, m': Shared, ps: seq<Party>, i: nat, p': Party)
    requires i < |ps| && Ledgers(m, ps) && LedgerDelta(m, m', ps[i], p')
    ensures Ledgers(m', ps[i := p'])
  {
    SumUpdate(CreatedSeats, ps, i, p');
    SumUpdate(CreatedAdults, ps, i, p');
    SumUpdate(CreatedChildren, ps, i, p');
    SumUpdate(CreatedVip, ps, i, p');
    SumUpdate(InOffice, ps, i, p');
    SumUpdate(IssuedTickets, ps, i, p');
    SumUpdate(SoldSeats, ps, i, p');
    SumUpdate(DeniedTickets, ps, i, p');
    SumUpdate(WaitingSeats, ps, i, p');
    SumUpdate(LeftSeats, ps, i, p');
    SumUpdate(RodeSeats, ps, i, p');
    SumUpdate(RodeVipSeats, ps, i, p');
  }

  /** No clamp: `waiting` always covers the seats of each single waiting party. */
  lemma WaitingCovers(m: Shared, ps: seq<Party>, i: nat)
    requires i < |ps| && m.waiting == Sum(WaitingSeats, ps)
    requires forall j :: 0 <= j < |ps| ==> WellFormedInfo(ps[j].info)
    ensures m.waiting >= WaitingSeats(ps[i])
  {
    SumAtLeast(WaitingSeats, ps, i);
  }

  /** A change of a party that leaves its rides alone. */
  predicate SameRides(p: Party, p': Party) {
    p'.rides == p.rides && (Rode(p) ==> p'.info.seatCount == p.info.seatCount && p'.info.hasBike == p.info.hasBike)
  }

  lemma ManifestKept(ps: seq<Party>, buses: seq<Bus>, ds: seq<Driver>, i: nat, p': Party)
    requires i < |ps| && SameRides(ps[i], p')
    ensures Manifest(ps, buses, ds) ==> Manifest(ps[i := p'], buses, ds)
    ensures BikeManifest(ps, buses, ds) ==> BikeManifest(ps[i := p'], buses, ds)
    ensures RidesPast(ps, ds) ==> RidesPast(ps[i := p'], ds)
  {
    forall g | 0 <= g < |ds|
      ensures Sum(OnTrip(g, ds[g].trip), ps[i := p']) == Sum(OnTrip(g, ds[g].trip), ps)
      ensures Sum(BikeOnJourney(g, ds[g].journey), ps[i := p']) == Sum(BikeOnJourney(g, ds[g].journey), ps)
    {
      SumUpdate(OnTrip(g, ds[g].trip), ps, i, p');
      SumUpdate(BikeOnJourney(g, ds[g].journey), ps, i, p');
    }
  }

  /** Nobody has yet boarded a trip or a journey that has not begun. */
  lemma FutureTripEmpty(ps: seq<Party>, ds: seq<Driver>, g: nat)
    requires g < |ds| && RidesPast(ps, ds)
    ensures Sum(OnTrip(g, ds[g].trip + 1), ps) == 0 && Sum(BikeOnJourney(g, ds[g].journey + 1), ps) == 0
  {
    forall i | 0 <= i < |ps|
      ensures OnTrip(g, ds[g].trip + 1)(ps[i]) == 0 && BikeOnJourney(g, ds[g].journey + 1)(ps[i]) == 0
    {
      assert Rode(ps[i]) ==> RideOk(ps[i].rides[0], ds);
    }
    SumZero(OnTrip(g, ds[g].trip + 1), ps);
    SumZero(BikeOnJourney(g, ds[g].journey + 1), ps);
  }

  /** A party that stays where it is keeps the semaphores and slots it holds. */
  lemma SamePlaceSameSlots(ps: seq<Party>, i: nat, p': Party)
    requires i < |ps| && p'.pc == ps[i].pc
    ensures Sum(AtEntryLock, ps[i := p']) == Sum(AtEntryLock, ps)
    ensures Sum(ReservedTicketSlot, ps[i := p']) == Sum(ReservedTicketSlot, ps)
    ensures Sum(HoldsBoardSlot, ps[i := p']) == Sum(HoldsBoardSlot, ps)
    ensures Sum(AwaitsBoarding, ps[i := p']) == Sum(AwaitsBoarding, ps)
  {
    SumUpdate(AtEntryLock, ps, i, p');
    SumUpdate(ReservedTicketSlot, ps, i, p');
    SumUpdate(HoldsBoardSlot, ps, i, p');
    SumUpdate(AwaitsBoarding, ps, i, p');
  }

  // --- the messages of other parties do not notice a change of one party ---

  lemma BoardingOthers(ps: seq<Party>, ds: seq<Driver>, q: seq<BoardingRequest>, r: seq<BoardingResponse>,
                       i: nat, p': Party)
    requires i < |ps| && BoardingMessages(ps, ds, q, r)
    requires NoneIn(BoardingRequestPid, q, i + 1) && NoneIn(Serving, ds, i + 1) && NoneIn(BoardingResponseKey, r, i + 1)
    ensures BoardingMessages(ps[i := p'], ds, q, r)
  {
  }

  lemma BoardingQuiet(ps: seq<Party>, ds: seq<Driver>, q: seq<BoardingRequest>, r: seq<BoardingResponse>,
                      i: nat, p': Party)
    requires i < |ps| && BoardingChannel(ps, ds, q, r) && !WaitsToBoard(ps[i]) && !WaitsToBoard(p')
    ensures BoardingChannel(ps[i := p'], ds, q, r)
  {
    Silent(WaitsToBoard, ps, BoardingRequestPid, q, Serving, ds, BoardingResponseKey, r, i);
    BoardingOthers(ps, ds, q, r, i, p');
    ClientMoves(WaitsToBoard, ps, BoardingRequestPid, q, Serving, ds, BoardingResponseKey, r, i, p');
  }

  lemma TicketOthers(ps: seq<Party>, os: seq<OfficePc>, q: seq<TicketRequest>, r: seq<TicketResponse>,
                     i: nat, p': Party)
    requires i < |ps| && TicketMessages(ps, os, q, r)
    requires NoneIn(TicketRequestPid, q, i + 1) && NoneIn(Selling, os, i + 1) && NoneIn(TicketResponseKey, r, i + 1)
    ensures TicketMessages(ps[i := p'], os, q, r)
  {
  }

  lemma TicketQuiet(ps: seq<Party>, os: seq<OfficePc>, q: seq<TicketRequest>, r: seq<TicketResponse>, i: nat, p': Party)
    requires i < |ps| && TicketChannel(ps, os, q, r) && !WaitsForTicket(ps[i]) && !WaitsForTicket(p')
    ensures TicketChannel(ps[i := p'], os, q, r)
  {
    Silent(WaitsForTicket, ps, TicketRequestPid, q, Selling, os, TicketResponseKey, r, i);
    TicketOthers(ps, os, q, r, i, p');
    ClientMoves(WaitsForTicket, ps, TicketRequestPid, q, Selling, os, TicketResponseKey, r, i, p');
  }
}
