/** How the steps of Protocol, which take each region as one step, stand in the operation sequences of LockOrder. */
module LockPlaces {
  import opened Domain
  import opened Protocol
  import opened Invariants
  import L = LockOrder

  datatype Place = Nowhere | Place(role: L.Role, at: nat)

  function PartyPlace(pc: PartyPc): Place {
    match pc
    case AwaitEntry(_) => Place(L.Enter, 2)
    case AtEntry(_) => Place(L.Enter, 3)
    case LeaveEntry(_, _) => Place(L.Enter, 5)
    case AwaitTicketSlot => Place(L.Ask, 2)
    case SendTicket => Place(L.Ask, 3)
    case AwaitTicket => Place(L.Ask, 4)
    case AwaitBoardSlot(_) => Place(L.Ask, 2)
    case SendBoard(_) => Place(L.Ask, 3)
    case AwaitBoard => Place(L.Ask, 4)
    case _ => Nowhere
  }

  function DriverPlace(pc: DriverPc): Place {
    match pc
    case AwaitDoor(req) => Place(L.Admit(req.passenger.hasBike), 3)
    case AtDoor(req) => Place(L.Admit(req.passenger.hasBike), 4)
    case LeaveDoor(req) => Place(L.Admit(req.passenger.hasBike), 6)
    case Answer(req, verdict) =>
      if verdict == Admitted then Place(L.Admit(req.passenger.hasBike), 7) else Place(L.Refuse, 3)
    case _ => Nowhere
  }

  /** What is executed on the way from place a to place b: if b is in another sequence or in none, a's is finished. */
  function OpsDone(a: Place, b: Place): seq<L.Op> {
    if !a.Place? || a.at > |L.Script(a.role)| then []
    else if b.Place? && b.role == a.role && a.at <= b.at <= |L.Script(a.role)| then L.Script(a.role)[a.at..b.at]
    else L.Script(a.role)[a.at..]
  }

  /** What the steps of Protocol stand for. */
  function DriverOps(pc: DriverPc): seq<L.Op> {
    match pc
    case AwaitDoor(req) => [L.Take(L.Door(req.passenger.hasBike))]
    case AtDoor(_) => [L.Take(L.Mutex), L.Give(L.Mutex)]
    case LeaveDoor(req) => [L.Give(L.Door(req.passenger.hasBike))]
    case Answer(_, _) => [L.Send]
    case _ => []
  }

  function PartyOps(pc: PartyPc): seq<L.Op> {
    match pc
    case AwaitEntry(_) => [L.Take(L.StationEntry)]
    case AtEntry(_) => [L.Take(L.Mutex), L.Give(L.Mutex)]
    case LeaveEntry(_, _) => [L.Give(L.StationEntry)]
    case AwaitTicketSlot => [L.Wait]
    case SendTicket => [L.Send]
    case AwaitTicket => [L.Wait]
    case AwaitBoardSlot(_) => [L.Wait]
    case SendBoard(_) => [L.Send]
    case AwaitBoard => [L.Wait]
    case _ => []
  }

  lemma AdmitPieces(bike: bool)
    ensures var ops := L.Script(L.Admit(bike));
            && ops[3..4] == [L.Take(L.Door(bike))] && ops[4..6] == [L.Take(L.Mutex), L.Give(L.Mutex)]
            && ops[6..7] == [L.Give(L.Door(bike))] && ops[7..] == [L.Send]
    ensures L.Script(L.Refuse)[3..] == [L.Send]
  {
  }

  lemma PartyPieces()
    ensures var ops := L.Script(L.Enter);
            && ops[2..3] == [L.Take(L.StationEntry)] && ops[3..5] == [L.Take(L.Mutex), L.Give(L.Mutex)]
            && ops[5..] == [L.Give(L.StationEntry)]
    ensures var ops := L.Script(L.Ask); ops[2..3] == [L.Wait] && ops[3..4] == [L.Send] && ops[4..] == [L.Wait]
  {
  }

  lemma DriverPlaces(cfg: Config, s: State, g: nat, due: bool)
    requires Dimensions(s) && g < |s.ds| && DriverEnabled(s, g) && DriverPlace(s.ds[g].pc).Place?
    ensures DriverPlace(DriverStep(cfg, s, g, due).ds[g].pc) ==
            (match s.ds[g].pc
             case AwaitDoor(req) => Place(L.Admit(req.passenger.hasBike), 4)
             case AtDoor(req) => Place(L.Admit(req.passenger.hasBike), 6)
             case LeaveDoor(req) => Place(L.Admit(req.passenger.hasBike), 7)
             case _ => Nowhere)
  {
  }

  /** From the door to the answer a driver's step is the next piece of process_boarding_request. */
  lemma DriverFollows(cfg: Config, s: State, g: nat, due: bool)
    requires Dimensions(s) && g < |s.ds| && DriverEnabled(s, g) && DriverPlace(s.ds[g].pc).Place?
    ensures OpsDone(DriverPlace(s.ds[g].pc), DriverPlace(DriverStep(cfg, s, g, due).ds[g].pc)) == DriverOps(s.ds[g].pc)
  {
    AdmitPieces(s.ds[g].pc.req.passenger.hasBike);
    DriverPlaces(cfg, s, g, due);
  }

  lemma EntrancePlaces(s: State, i: nat, childFails: bool)
    requires i < |s.ps| && PartyEnabled(s, i)
    requires s.ps[i].pc.AwaitEntry? || s.ps[i].pc.AtEntry? || s.ps[i].pc.LeaveEntry?
    ensures PartyPlace(PartyStep(s, i, childFails).ps[i].pc) ==
            (match s.ps[i].pc
             case AwaitEntry(_) => Place(L.Enter, 3)
             case AtEntry(_) => Place(L.Enter, 5)
             case _ => Nowhere)
  {
  }

  /** A party's step at the entrance, or towards an answer, is the next piece of enter_station, purchase_ticket or
      attempt_boarding. */
  lemma PartyFollows(s: State, i: nat, childFails: bool)
    requires i < |s.ps| && PartyEnabled(s, i) && PartyPlace(s.ps[i].pc).Place?
    ensures OpsDone(PartyPlace(s.ps[i].pc), PartyPlace(PartyStep(s, i, childFails).ps[i].pc)) == PartyOps(s.ps[i].pc)
  {
    PartyPieces();
    if s.ps[i].pc.AwaitEntry? || s.ps[i].pc.AtEntry? || s.ps[i].pc.LeaveEntry? { EntrancePlaces(s, i, childFails); }
  }

  function HeldAt(place: Place, lock: L.Lock): int {
    if place.Place? then L.Held(lock)(L.Process(place.role, place.at, false)) else 0
  }

  /** The doors and the entrance are held in Protocol just when the executed operations say so. */
  lemma DoorsHeldAlike(d: Driver, bike: bool)
    ensures HeldAt(DriverPlace(d.pc), L.Door(bike)) == When(InDoor(d, bike), 1)
    ensures HeldAt(DriverPlace(d.pc), L.Mutex) == 0
  {
    var place := DriverPlace(d.pc);
    if place.Place? {
      L.HeldIs(place.role, place.at, L.Door(bike));
      L.HeldIs(place.role, place.at, L.Mutex);
    }
  }

  lemma EntryHeldAlike(p: Party)
    ensures HeldAt(PartyPlace(p.pc), L.StationEntry) == AtEntryLock(p)
    ensures HeldAt(PartyPlace(p.pc), L.Mutex) == 0
  {
    var place := PartyPlace(p.pc);
    if place.Place? {
      L.HeldIs(place.role, place.at, L.StationEntry);
      L.HeldIs(place.role, place.at, L.Mutex);
    }
  }
}
