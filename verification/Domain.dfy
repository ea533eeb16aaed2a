/** Passengers, messages and the checks the office and the driver make on them. */
module Domain {

  // config.h; seats per bus, bikes per bus, offices and queue limits stay symbolic in Config.
  const MIN_AGE := 3
  const MAX_AGE := 70
  const CHILD_AGE_LIMIT := 8
  const ADULT_MIN_AGE := 18
  const VIP_PERCENT := 1
  const BIKE_PERCENT := 20
  const ADULT_WITH_CHILD_PERCENT := 15
  const MAX_ENTER_ATTEMPTS := 10
  /** The value sem_setval gives the entry and ticket semaphores when the station closes. */
  const WAKE_ALL := 1000

  // Message types on the two request queues.
  const MSG_TICKET_REQUEST := 1
  const MSG_BOARD_REQUEST_VIP := 1
  const MSG_BOARD_REQUEST := 2

  /** What config.h and the BUS_* environment variables fix for one run. */
  datatype Config = Config(
    seats: nat,            // BUS_CAPACITY
    bikes: nat,            // BIKE_CAPACITY
    ticketLimit: nat,      // MAX_TICKET_QUEUE_REQUESTS
    boardingLimit: nat,    // MAX_BOARDING_QUEUE_REQUESTS
    perf: bool,            // BUS_PERF_MODE
    departWhenFull: bool)  // BUS_FULL_DEPART

  datatype PassengerInfo = PassengerInfo(
    pid: int,
    age: int,
    hasBike: bool,
    isVip: bool,
    hasTicket: bool,
    isChild: bool,
    hasChildWith: bool,
    childAge: int,
    seatCount: int,
    assignedBus: int)

  datatype TicketRequest = TicketRequest(mtype: int, passenger: PassengerInfo)
  datatype TicketResponse = TicketResponse(mtype: int, passenger: PassengerInfo, office: int, approved: bool)

  /** An office's answer: it fills in the ticket it grants. */
  function TicketAnswer(p: PassengerInfo, office: int, approved: bool): TicketResponse {
    TicketResponse(p.pid, if approved then p.(hasTicket := true) else p, office, approved)
  }

  datatype BoardingRequest = BoardingRequest(mtype: int, passenger: PassengerInfo, busId: int)
  datatype BoardingResponse =
    BoardingResponse(mtype: int, passenger: PassengerInfo, busId: int, approved: bool, reason: Verdict)

  /** The outcome of can_board: the reasons in the order in which they are tried. */
  datatype Verdict = TicketMissing | Blocked | NotAtStation | NotOpen | NotEnoughSeats | BikesFull | Admitted

  function TicketRequestPid(m: TicketRequest): int { m.passenger.pid }
  function TicketResponseKey(m: TicketResponse): int { m.mtype }
  function BoardingRequestPid(m: BoardingRequest): int { m.passenger.pid }
  function BoardingResponseKey(m: BoardingResponse): int { m.mtype }

  /** Seats the office charges and the driver fills: a non-positive seat_count is taken as one. */
  function SeatsNeeded(p: PassengerInfo): (n: int)
    ensures n >= 1 && n >= p.seatCount && (n == 1 || n == p.seatCount)
  {
    if p.seatCount > 0 then p.seatCount else 1
  }

  predicate ValidPassenger(p: PassengerInfo) {
    !(p.age < MIN_AGE || p.age > MAX_AGE) && !(p.pid <= 0)
  }

  predicate ValidTicketRequest(m: TicketRequest) {
    m.mtype == MSG_TICKET_REQUEST && !(m.passenger.pid <= 0)
  }

  predicate ValidBoardingRequest(m: BoardingRequest) {
    && (m.mtype == MSG_BOARD_REQUEST || m.mtype == MSG_BOARD_REQUEST_VIP)
    && !(m.passenger.pid <= 0)
    && !(m.passenger.seatCount <= 0 || m.passenger.seatCount > 2)
    && !(m.passenger.age < MIN_AGE || m.passenger.age > MAX_AGE)
  }

  /** The shape every passenger process has after init_passenger, whatever happens to it later. */
  predicate WellFormedInfo(p: PassengerInfo) {
    && p.pid > 0
    && ADULT_MIN_AGE <= p.age <= MAX_AGE
    && !p.isChild
    && p.seatCount == (if p.hasChildWith then 2 else 1)
    && (p.isVip ==> p.hasTicket)
  }

  /** init_passenger, with the five calls of rand() as arguments. */
  method InitPassenger(pid: int, r0: nat, r1: nat, r2: nat, r3: nat, r4: nat) returns (info: PassengerInfo)
    requires pid > 0
    ensures WellFormedInfo(info) && info.pid == pid && info.assignedBus == -1
    ensures info.age == ADULT_MIN_AGE + r0 % (MAX_AGE - ADULT_MIN_AGE + 1) && info.hasTicket == info.isVip
    ensures info.isVip <==> r1 % 100 < VIP_PERCENT
    ensures info.hasChildWith <==> r3 % 100 < ADULT_WITH_CHILD_PERCENT
    ensures info.hasBike <==> r2 % 100 < BIKE_PERCENT && !info.hasChildWith
    ensures info.hasChildWith ==> info.childAge == MIN_AGE + r4 % (CHILD_AGE_LIMIT - MIN_AGE)
    ensures !info.hasChildWith ==> info.childAge == 0
    ensures info.hasChildWith ==> MIN_AGE <= info.childAge < CHILD_AGE_LIMIT
  {
    info := PassengerInfo(pid, 0, false, false, false, false, false, 0, 0, 0);
    info := info.(age := ADULT_MIN_AGE + r0 % (MAX_AGE - ADULT_MIN_AGE + 1));
    info := info.(isChild := false);
    info := info.(isVip := r1 % 100 < VIP_PERCENT);
    info := info.(hasBike := r2 % 100 < BIKE_PERCENT);
    info := info.(hasChildWith := r3 % 100 < ADULT_WITH_CHILD_PERCENT);
    if info.hasChildWith {
      info := info.(childAge := MIN_AGE + r4 % (CHILD_AGE_LIMIT - MIN_AGE));
      info := info.(seatCount := 2);
      info := info.(hasBike := false);
    } else {
      info := info.(childAge := 0);
      info := info.(seatCount := 1);
    }
    info := info.(hasTicket := info.isVip);
    info := info.(assignedBus := -1);
  }

  /** Whatever a well-formed passenger sends, no validator rejects it and it occupies its own seat count. */
  lemma WellFormedInfoIsAccepted(p: PassengerInfo, bus: int)
    requires WellFormedInfo(p)
    ensures ValidPassenger(p) && ValidTicketRequest(TicketRequest(MSG_TICKET_REQUEST, p))
    ensures ValidBoardingRequest(BoardingRequest(RequestType(p), p, bus))
    ensures SeatsNeeded(p) == p.seatCount
  {
  }

  /** The validators turn away exactly what they are there to turn away. */
  lemma InvalidIsRejected(p: PassengerInfo, mtype: int, bus: int)
    ensures ValidPassenger(p) <==> MIN_AGE <= p.age <= MAX_AGE && p.pid > 0
    ensures ValidTicketRequest(TicketRequest(mtype, p)) <==> mtype == MSG_TICKET_REQUEST && p.pid > 0
    ensures ValidBoardingRequest(BoardingRequest(mtype, p, bus)) <==>
              mtype in {MSG_BOARD_REQUEST, MSG_BOARD_REQUEST_VIP} && p.pid > 0 && p.seatCount in {1, 2}
              && MIN_AGE <= p.age <= MAX_AGE
  {
  }

  /** VIPs use the lower message type, which the drivers receive first. */
  function RequestType(p: PassengerInfo): int {
    if p.isVip then MSG_BOARD_REQUEST_VIP else MSG_BOARD_REQUEST
  }

  // --- msgrcv with a negative type: lowest type first, first in first out within a type ---

  predicate Receivable(q: seq<BoardingRequest>, i: nat, limit: int) {
    i < |q| && 0 < q[i].mtype <= limit
  }

  /** i is the message that msgrcv(q, ..., -limit) removes. */
  ghost predicate IsNextRequest(q: seq<BoardingRequest>, limit: int, i: nat) {
    && Receivable(q, i, limit)
    && (forall j: nat :: Receivable(q, j, limit) ==> q[i].mtype <= q[j].mtype)
    && (forall j: nat :: j < i && Receivable(q, j, limit) ==> q[i].mtype < q[j].mtype)
  }

  /** The index received, or |q| when the receiver must wait. */
  function NextRequest(q: seq<BoardingRequest>, limit: int): (i: nat)
    ensures i <= |q|
    ensures i < |q| ==> IsNextRequest(q, limit, i)
    ensures i == |q| ==> forall j: nat :: !Receivable(q, j, limit)
  {
    if q == [] then 0
    else
      var last := |q| - 1;
      var i := NextRequest(q[..last], limit);
      NextRequestFrame(q, limit, i);
      if i < last then
        (if 0 < q[last].mtype < q[i].mtype then last else i)
      else if 0 < q[last].mtype <= limit then last
      else |q|
  }

  lemma NextRequestFrame(q: seq<BoardingRequest>, limit: int, i: nat)
    requires |q| > 0
    ensures forall j: nat :: j < |q| - 1 ==> (Receivable(q[..|q| - 1], j, limit) <==> Receivable(q, j, limit))
    ensures forall j: nat :: j < |q| - 1 ==> q[..|q| - 1][j] == q[j]
  {
  }

  /** There is never a choice: the message that POSIX says is removed is the one NextRequest finds. */
  lemma NextRequestIsTheOne(q: seq<BoardingRequest>, limit: int, i: nat)
    requires IsNextRequest(q, limit, i)
    ensures NextRequest(q, limit) == i
  {
    var j := NextRequest(q, limit);
    assert Receivable(q, i, limit);
    assert j < |q| ==> Receivable(q, j, limit);
  }
}
