/** Concrete runs for what the code does not guarantee: main's drain test fires while a party is still between
    counters, the shutdown credits a travelling passenger twice or lets a bus overfill, and two buses take passengers
    at the same time. */
module Witness {
  import opened Sequences
  import opened Domain
  import opened SharedRecord
  import opened Protocol
  import opened Invariants
  import opened Conservation
  import opened Capacity
  import opened Fleet

  /** Any capacities will do; not being in performance mode only makes the run shorter. */
  predicate Suitable(cfg: Config) { cfg.seats >= 1 && cfg.boardingLimit >= 1 && !cfg.perf }

  function Vip(bus: int := -1): PassengerInfo {
    PassengerInfo(1, ADULT_MIN_AGE, false, true, true, false, false, 0, 1, bus)
  }

  function Bystander(): PassengerInfo {
    PassengerInfo(2, ADULT_MIN_AGE, false, true, true, false, false, 0, 1, -1)
  }

  function VipAt(pc: PartyPc): Party { Party(Vip(), pc, 0, 0, 0, []) }
  function VipRiding(): Party { Party(Vip(), AwaitBoard, 0, 0, 0, [Ride(0, 0, 0)]) }
  function BystanderAt(pc: PartyPc): Party { Party(Bystander(), pc, 0, 0, 0, []) }
  function DriverAt(pc: DriverPc, trip: nat := 0): Driver { Driver(pc, true, false, false, trip, trip) }

  function Request(): BoardingRequest { BoardingRequest(MSG_BOARD_REQUEST_VIP, Vip(), 0) }
  function Yes(): BoardingResponse { BoardingResponse(1, Vip(), 0, true, Admitted) }

  /** The record of a system with one bus and no office. */
  function Record(b: Bus, pid: int, active: int, created: int, vip: int, waiting: int, boarded: int, transported: int)
    : Shared
  {
    InitialShared(1, 0).(buses := [b], driverPids := [pid], active := active, created := created, adults := created,
                         vipCreated := vip, waiting := waiting, boarded := boarded, boardedVip := boarded,
                         transported := transported)
  }

  function Scene(cfg: Config, m: Shared, p: Party, other: Party, d: Driver, entry: int, door: int, slots: int,
                 q: seq<BoardingRequest>, r: seq<BoardingResponse>): State {
    State(m, [p, other], [d], [], Loop, entry, door, 1, cfg.ticketLimit, slots, [], [], q, r, false, false, 0)
  }

  /** A run can be continued by any enabled step. */
  lemma Extend(cfg: Config, run: seq<State>, step: Step, t: State) returns (longer: seq<State>)
    requires IsRun(cfg, run)
    requires var s := run[|run| - 1]; Dimensions(s) && Enabled(s, step) && t == Apply(cfg, s, step)
    ensures IsRun(cfg, longer) && longer == run + [t]
  {
    longer := run + [t];
    forall k: nat | k + 1 < |longer| ensures StepAt(cfg, longer, k) {
      if k + 1 < |run| {
        assert StepAt(cfg, run, k);
      } else {
        assert longer[k] == run[|run| - 1] && longer[k + 1] == t;
      }
    }
  }

  ghost predicate Reaches(cfg: Config, t: State) {
    exists run: seq<State> :: IsRun(cfg, run) && run[|run| - 1] == t
  }

  lemma Go(cfg: Config, s: State, step: Step, t: State)
    requires Reaches(cfg, s) && Dimensions(s) && Enabled(s, step) && t == Apply(cfg, s, step)
    ensures Reaches(cfg, t)
  {
    var run: seq<State> :| IsRun(cfg, run) && run[|run| - 1] == s;
    var longer := Extend(cfg, run, step, t);
    assert longer[|longer| - 1] == t;
  }

  lemma Party0Goes(cfg: Config, s: State, x: Party, y: Party, p: Party, t: State)
    requires Reaches(cfg, s) && Dimensions(s) && s.ps == [x, y] && PartyEnabled(s, 0)
    requires var u := PartyStep(s, 0, false); u.ps == s.ps[0 := p] && t == u.(ps := [p, y])
    ensures Reaches(cfg, t)
  {
    assert s.ps[0 := p] == [p, y];
    Go(cfg, s, PartyMove(0, false), t);
  }

  lemma DriverGoes(cfg: Config, s: State, due: bool, t: State)
    requires Reaches(cfg, s) && Dimensions(s) && |s.ds| == 1 && DriverEnabled(s, 0)
    requires t == DriverStep(cfg, s, 0, due)
    ensures Reaches(cfg, t)
  {
    Go(cfg, s, DriverMove(0, due), t);
  }

  lemma Singles(b: Bus, b': Bus, d: Driver, d': Driver, n: int, n': int)
    ensures [b][0 := b'] == [b'] && [d][0 := d'] == [d'] && [n][0 := n'] == [n']
  {
  }

  function Start(cfg: Config): State {
    Scene(cfg, Record(IdleBus(), 0, 0, 0, 0, 0, 0, 0), VipAt(Spawned), BystanderAt(Spawned), DriverAt(Unregistered),
          1, 1, cfg.boardingLimit, [], [])
  }

  lemma Starts(cfg: Config)
    ensures Reaches(cfg, Start(cfg))
  {
    var s := Start(cfg);
    assert s.shm == InitialShared(1, 0) by {
      assert [IdleBus()] == seq(1, i => IdleBus()) && [0] == seq(1, i => 0);
    }
    var run := [s];
    assert IsRun(cfg, run) && run[|run| - 1] == s;
  }

  /** The driver registers and waits for requests. */
  lemma DriverOpens(cfg: Config)
    requires Suitable(cfg)
    ensures Reaches(cfg, Scene(cfg, Record(OPEN_BUS, 1, 0, 0, 0, 0, 0, 0), VipAt(Spawned), BystanderAt(Spawned),
                               DriverAt(Receive), 1, 1, cfg.boardingLimit, [], []))
  {
    Starts(cfg);
    var b := OPEN_BUS;
    var m := Record(b, 1, 0, 0, 0, 0, 0, 0);
    var s1 := Start(cfg).(shm := m, ds := [DriverAt(Check)]);
    Singles(IdleBus(), b, DriverAt(Unregistered), DriverAt(Check), 0, 1);
    DriverGoes(cfg, Start(cfg), false, s1);
    var s2 := s1.(ds := [DriverAt(ReadState)]);
    Singles(b, b, DriverAt(Check), DriverAt(ReadState), 0, 0);
    DriverGoes(cfg, s1, false, s2);
    var s3 := s2.(ds := [DriverAt(Receive)]);
    Singles(b, b, DriverAt(ReadState), DriverAt(Receive), 0, 0);
    DriverGoes(cfg, s2, false, s3);
  }

  const OPEN_BUS := Bus(true, true, 0, 0, 0)

  /** The VIP on its way in, while the driver waits. */
  function Entering(cfg: Config, pc: PartyPc, created: int, waiting: int, entry: int): State {
    Scene(cfg, Record(OPEN_BUS, 1, 0, created, created, waiting, 0, 0), VipAt(pc), BystanderAt(Spawned),
          DriverAt(Receive), entry, 1, cfg.boardingLimit, [], [])
  }

  lemma EntersFrom(cfg: Config, pc: PartyPc, created: int, waiting: int, entry: int, pc': PartyPc, t: State)
    requires Reaches(cfg, Entering(cfg, pc, created, waiting, entry))
    requires var s := Entering(cfg, pc, created, waiting, entry);
             && PartyEnabled(s, 0) && PartyStep(s, 0, false).ps == s.ps[0 := VipAt(pc')]
             && t == PartyStep(s, 0, false).(ps := [VipAt(pc'), BystanderAt(Spawned)])
    ensures Reaches(cfg, t)
  {
    Party0Goes(cfg, Entering(cfg, pc, created, waiting, entry), VipAt(pc), BystanderAt(Spawned), VipAt(pc'), t);
  }

  lemma VipArrives(cfg: Config)
    requires Suitable(cfg)
    ensures Reaches(cfg, Entering(cfg, EnterCheck(0), 1, 0, 1))
  {
    DriverOpens(cfg);
    EntersFrom(cfg, Spawned, 0, 0, 1, Arrived, Entering(cfg, Arrived, 0, 0, 1));
    EntersFrom(cfg, Arrived, 0, 0, 1, CheckClosed, Entering(cfg, CheckClosed, 1, 0, 1));
    EntersFrom(cfg, CheckClosed, 1, 0, 1, EnterCheck(0), Entering(cfg, EnterCheck(0), 1, 0, 1));
  }

  /** The VIP passes the station entrance... */
  lemma VipEnters(cfg: Config)
    requires Suitable(cfg)
    ensures Reaches(cfg, Entering(cfg, LeaveEntry(0, true), 1, 1, 0))
  {
    VipArrives(cfg);
    EntersFrom(cfg, EnterCheck(0), 1, 0, 1, AwaitEntry(0), Entering(cfg, AwaitEntry(0), 1, 0, 1));
    EntersFrom(cfg, AwaitEntry(0), 1, 0, 1, AtEntry(0), Entering(cfg, AtEntry(0), 1, 0, 0));
    EntersFrom(cfg, AtEntry(0), 1, 0, 0, LeaveEntry(0, true), Entering(cfg, LeaveEntry(0, true), 1, 1, 0));
  }

  /** ... and takes note of the active bus. */
  lemma VipFindsBus(cfg: Config)
    requires Suitable(cfg)
    ensures Reaches(cfg, Entering(cfg, AwaitBoardSlot(0), 1, 1, 1))
  {
    VipEnters(cfg);
    EntersFrom(cfg, LeaveEntry(0, true), 1, 1, 0, BoardCheck, Entering(cfg, BoardCheck, 1, 1, 1));
    EntersFrom(cfg, BoardCheck, 1, 1, 1, FindBus, Entering(cfg, FindBus, 1, 1, 1));
    EntersFrom(cfg, FindBus, 1, 1, 1, AwaitBoardSlot(0), Entering(cfg, AwaitBoardSlot(0), 1, 1, 1));
  }

  /** It takes a slot in the queue... */
  lemma VipTakesSlot(cfg: Config)
    requires Suitable(cfg)
    ensures Reaches(cfg, Entering(cfg, SendBoard(0), 1, 1, 1).(boardSlots := cfg.boardingLimit - 1))
  {
    VipFindsBus(cfg);
    EntersFrom(cfg, AwaitBoardSlot(0), 1, 1, 1, SendBoard(0),
               Entering(cfg, SendBoard(0), 1, 1, 1).(boardSlots := cfg.boardingLimit - 1));
  }

  /** ... and asks to board bus 0. */
  lemma VipAsks(cfg: Config)
    requires Suitable(cfg)
    ensures Reaches(cfg, Scene(cfg, Record(OPEN_BUS, 1, 0, 1, 1, 1, 0, 0), VipAt(AwaitBoard), BystanderAt(Spawned),
                               DriverAt(Receive), 1, 1, cfg.boardingLimit - 1, [Request()], []))
  {
    VipTakesSlot(cfg);
    var s := Entering(cfg, SendBoard(0), 1, 1, 1).(boardSlots := cfg.boardingLimit - 1);
    var t := s.(ps := [VipAt(AwaitBoard), BystanderAt(Spawned)], boardQ := [Request()]);
    assert [] + [Request()] == [Request()];
    Party0Goes(cfg, s, VipAt(SendBoard(0)), BystanderAt(Spawned), VipAt(AwaitBoard), t);
  }

  const BUSY_BUS := Bus(true, true, 0, 0, 1)

  /** The driver takes up the request... */
  function Asked(cfg: Config, pc: DriverPc): State {
    Scene(cfg, Record(OPEN_BUS, 1, 0, 1, 1, 1, 0, 0), VipAt(AwaitBoard), BystanderAt(Spawned), DriverAt(pc),
          1, 1, cfg.boardingLimit - 1, [], [])
  }

  lemma DriverReceives(cfg: Config)
    requires Suitable(cfg)
    ensures Reaches(cfg, Asked(cfg, Process(Request())))
  {
    VipAsks(cfg);
    var s0 := Asked(cfg, Receive).(boardQ := [Request()]);
    assert Receivable([Request()], 0, MSG_BOARD_REQUEST);
    assert RemoveAt([Request()], 0) == [];
    Singles(OPEN_BUS, BUSY_BUS, DriverAt(Receive), DriverAt(Process(Request())), 0, 0);
    DriverGoes(cfg, s0, false, Asked(cfg, Process(Request())));
  }

  /** ... approves it, and stands at the door with the party. */
  lemma DriverApproves(cfg: Config)
    requires Suitable(cfg)
    ensures Reaches(cfg, Scene(cfg, Record(BUSY_BUS, 1, 0, 1, 1, 1, 0, 0), VipAt(AwaitBoard), BystanderAt(Spawned),
                               DriverAt(AtDoor(Request())), 1, 0, cfg.boardingLimit - 1, [], []))
  {
    DriverReceives(cfg);
    var s1 := Asked(cfg, Process(Request()));
    var s2 := s1.(ds := [DriverAt(AwaitDoor(Request()))], shm := Record(BUSY_BUS, 1, 0, 1, 1, 1, 0, 0));
    Singles(OPEN_BUS, BUSY_BUS, DriverAt(Process(Request())), DriverAt(AwaitDoor(Request())), 0, 0);
    DriverGoes(cfg, s1, false, s2);
    var s3 := s2.(ds := [DriverAt(AtDoor(Request()))], passengerDoor := 0);
    Singles(BUSY_BUS, BUSY_BUS, DriverAt(AwaitDoor(Request())), DriverAt(AtDoor(Request())), 0, 0);
    DriverGoes(cfg, s2, false, s3);
  }

  const FULL_BUS := Bus(true, true, 1, 0, 0)

  /** The VIP sits down... */
  function Seated(cfg: Config): State {
    Scene(cfg, Record(FULL_BUS, 1, 0, 1, 1, 0, 1, 0), VipRiding(), BystanderAt(Spawned),
          DriverAt(LeaveDoor(Request())), 1, 0, cfg.boardingLimit - 1, [], [])
  }

  lemma VipSits(cfg: Config)
    requires Suitable(cfg)
    ensures Reaches(cfg, Seated(cfg))
  {
    DriverApproves(cfg);
    var s0 := Scene(cfg, Record(BUSY_BUS, 1, 0, 1, 1, 1, 0, 0), VipAt(AwaitBoard), BystanderAt(Spawned),
                    DriverAt(AtDoor(Request())), 1, 0, cfg.boardingLimit - 1, [], []);
    assert [] + [Ride(0, 0, 0)] == [Ride(0, 0, 0)];
    assert [VipAt(AwaitBoard), BystanderAt(Spawned)][0 := VipRiding()] == [VipRiding(), BystanderAt(Spawned)];
    Singles(BUSY_BUS, FULL_BUS, DriverAt(AtDoor(Request())), DriverAt(LeaveDoor(Request())), 0, 0);
    DriverGoes(cfg, s0, false, Seated(cfg));
  }

  /** ... and the driver answers. */
  lemma DriverAnswers(cfg: Config)
    requires Suitable(cfg)
    ensures Reaches(cfg, Seated(cfg).(ds := [DriverAt(DepartCheck(LoopEnd))], passengerDoor := 1, boardR := [Yes()]))
  {
    VipSits(cfg);
    var s2 := Seated(cfg).(ds := [DriverAt(Answer(Request(), Admitted))], passengerDoor := 1);
    Singles(FULL_BUS, FULL_BUS, DriverAt(LeaveDoor(Request())), DriverAt(Answer(Request(), Admitted)), 0, 0);
    DriverGoes(cfg, Seated(cfg), false, s2);
    var s3 := s2.(ds := [DriverAt(DepartCheck(LoopEnd))], boardR := [Yes()]);
    assert [] + [Yes()] == [Yes()];
    Singles(FULL_BUS, FULL_BUS, DriverAt(Answer(Request(), Admitted)), DriverAt(DepartCheck(LoopEnd)), 0, 0);
    DriverGoes(cfg, s2, false, s3);
  }

  const AWAY_BUS := Bus(false, false, 1, 0, 0)

  /** The driver decides to depart and gives up the active bus. */
  lemma DriverSwitches(cfg: Config)
    requires Suitable(cfg)
    ensures Reaches(cfg, Scene(cfg, Record(FULL_BUS, 1, -1, 1, 1, 0, 1, 0), VipRiding(), BystanderAt(Spawned),
                               DriverAt(EntranceClear(false)), 1, 1, cfg.boardingLimit - 1, [], [Yes()]))
  {
    DriverAnswers(cfg);
    var s0 := Scene(cfg, Record(FULL_BUS, 1, 0, 1, 1, 0, 1, 0), VipRiding(), BystanderAt(Spawned),
                    DriverAt(DepartCheck(LoopEnd)), 1, 1, cfg.boardingLimit - 1, [], [Yes()]);
    var s1 := s0.(ds := [DriverAt(Switch)]);
    Singles(FULL_BUS, FULL_BUS, DriverAt(DepartCheck(LoopEnd)), DriverAt(Switch), 0, 0);
    DriverGoes(cfg, s0, true, s1);
    var s2 := s1.(ds := [DriverAt(EntranceClear(false))], shm := Record(FULL_BUS, 1, -1, 1, 1, 0, 1, 0));
    SwitchMeaning([FULL_BUS], 0);
    Singles(FULL_BUS, FULL_BUS, DriverAt(Switch), DriverAt(EntranceClear(false)), 0, 0);
    DriverGoes(cfg, s1, false, s2);
  }

  /** The bus leaves with it. */
  lemma BusLeaves(cfg: Config)
    requires Suitable(cfg)
    ensures Reaches(cfg, Scene(cfg, Record(AWAY_BUS, 1, -1, 1, 1, 0, 1, 1), VipRiding(), BystanderAt(Spawned),
                               DriverAt(Travelling(false), 1), 1, 1, cfg.boardingLimit - 1, [], [Yes()]))
  {
    DriverSwitches(cfg);
    var s2 := Scene(cfg, Record(FULL_BUS, 1, -1, 1, 1, 0, 1, 0), VipRiding(), BystanderAt(Spawned),
                    DriverAt(EntranceClear(false)), 1, 1, cfg.boardingLimit - 1, [], [Yes()]);
    var s3 := s2.(ds := [DriverAt(Leave(false))]);
    Singles(FULL_BUS, FULL_BUS, DriverAt(EntranceClear(false)), DriverAt(Leave(false)), 0, 0);
    DriverGoes(cfg, s2, false, s3);
    var s4 := s3.(ds := [DriverAt(Travelling(false), 1)], shm := Record(AWAY_BUS, 1, -1, 1, 1, 0, 1, 1));
    Singles(FULL_BUS, AWAY_BUS, DriverAt(Leave(false)), DriverAt(Travelling(false), 1), 0, 0);
    DriverGoes(cfg, s3, false, s4);
  }

  /** Meanwhile the other party arrives, is counted, and spawning stops. */
  function Confused(cfg: Config): State {
    Scene(cfg, Record(AWAY_BUS, 1, -1, 2, 2, 0, 1, 1).(spawningStopped := true), VipRiding(), BystanderAt(CheckClosed),
          DriverAt(Travelling(false), 1), 1, 1, cfg.boardingLimit - 1, [], [Yes()])
  }

  lemma BystanderArrives(cfg: Config)
    requires Suitable(cfg)
    ensures Reaches(cfg, Confused(cfg))
  {
    BusLeaves(cfg);
    var p := VipRiding();
    var s0 := Scene(cfg, Record(AWAY_BUS, 1, -1, 1, 1, 0, 1, 1), p, BystanderAt(Spawned),
                    DriverAt(Travelling(false), 1), 1, 1, cfg.boardingLimit - 1, [], [Yes()]);
    var s1 := s0.(ps := [p, BystanderAt(Arrived)]);
    assert [p, BystanderAt(Spawned)][1 := BystanderAt(Arrived)] == [p, BystanderAt(Arrived)];
    Go(cfg, s0, PartyMove(1, false), s1);
    var s2 := s1.(ps := [p, BystanderAt(CheckClosed)], shm := Record(AWAY_BUS, 1, -1, 2, 2, 0, 1, 1));
    assert [p, BystanderAt(Arrived)][1 := BystanderAt(CheckClosed)] == [p, BystanderAt(CheckClosed)];
    Go(cfg, s1, PartyMove(1, false), s2);
    Go(cfg, s2, SpawningStops, Confused(cfg));
  }

  lemma PairSum<T>(w: T -> int, x: T, y: T)
    ensures Sum(w, [x, y]) == w(x) + w(y) && Sum(w, [x]) == w(x)
  {
    assert [x, y][1..] == [y] && [y][1..] == [] && [x][1..] == [];
    assert Sum(w, [y]) == w(y);
  }

  lemma ConfusedBooks(cfg: Config)
    ensures var s := Confused(cfg); DrainComplete(s.shm) && Between(s) == OffStation(s) == 1
  {
    PairSum(BetweenSeats, VipRiding(), BystanderAt(CheckClosed));
    PairSum(LoadTravelling, AWAY_BUS, AWAY_BUS);
    PairSum(OnBus, AWAY_BUS, AWAY_BUS);
  }

  /** main's drain test can fire although a counted party has yet to enter the station: a person still recorded on a
      travelling bus hides the one between counters. */
  lemma DrainTestMayFireEarly(cfg: Config) returns (run: seq<State>)
    requires Suitable(cfg)
    ensures IsRun(cfg, run)
    ensures var s := run[|run| - 1];
            s.shm.running && DrainComplete(s.shm) && Between(s) == OffStation(s) == 1
  {
    BystanderArrives(cfg);
    run :| IsRun(cfg, run) && run[|run| - 1] == Confused(cfg);
    ConfusedBooks(cfg);
  }

  /** And the shutdown can credit a person twice: `transported` then exceeds `boarded`. */
  lemma ShutdownMayDoubleCount(cfg: Config) returns (run: seq<State>)
    requires Suitable(cfg)
    ensures IsRun(cfg, run)
    ensures var s := run[|run| - 1]; !s.shm.running && s.shm.transported == 2 && s.shm.boarded == 1
  {
    BystanderArrives(cfg);
    var s := Confused(cfg);
    var ending := s.(dispatcher := Ending);
    Go(cfg, s, TerminateSignal, ending);
    var t := Apply(cfg, ending, ShutDown);
    Go(cfg, ending, ShutDown, t);
    PairSum(FoldedLoad, AWAY_BUS, AWAY_BUS);
    run :| IsRun(cfg, run) && run[|run| - 1] == t;
  }

  // --- too many people on one bus ---

  /** One seat, and the driver does not leave when it is taken. */
  predicate Cramped(cfg: Config) { Suitable(cfg) && cfg.seats == 1 && cfg.boardingLimit >= 2 && !cfg.departWhenFull }

  function SecondRequest(): BoardingRequest { BoardingRequest(MSG_BOARD_REQUEST_VIP, Bystander(), 0) }

  /** The bus is full and its driver at pc; the other party is on its way in. */
  function Following(cfg: Config, d: DriverPc, pc: PartyPc, created: int, waiting: int, entry: int): State {
    Scene(cfg, Record(FULL_BUS, 1, 0, created, created, waiting, 1, 0), VipRiding(), BystanderAt(pc), DriverAt(d),
          entry, 1, cfg.boardingLimit - 1, [], [Yes()])
  }

  lemma FullBusStays(cfg: Config)
    requires Cramped(cfg)
    ensures Reaches(cfg, Following(cfg, Receive, Spawned, 1, 0, 1))
  {
    DriverAnswers(cfg);
    var s0 := Following(cfg, DepartCheck(LoopEnd), Spawned, 1, 0, 1);
    var s1 := Following(cfg, Check, Spawned, 1, 0, 1);
    Singles(FULL_BUS, FULL_BUS, DriverAt(DepartCheck(LoopEnd)), DriverAt(Check), 0, 0);
    DriverGoes(cfg, s0, false, s1);
    var s2 := Following(cfg, ReadState, Spawned, 1, 0, 1);
    Singles(FULL_BUS, FULL_BUS, DriverAt(Check), DriverAt(ReadState), 0, 0);
    DriverGoes(cfg, s1, false, s2);
    Singles(FULL_BUS, FULL_BUS, DriverAt(ReadState), DriverAt(Receive), 0, 0);
    DriverGoes(cfg, s2, false, Following(cfg, Receive, Spawned, 1, 0, 1));
  }

  lemma FollowsFrom(cfg: Config, pc: PartyPc, created: int, waiting: int, entry: int, pc': PartyPc, t: State)
    requires Reaches(cfg, Following(cfg, Receive, pc, created, waiting, entry))
    requires var s := Following(cfg, Receive, pc, created, waiting, entry);
             && PartyEnabled(s, 1) && PartyStep(s, 1, false).ps == s.ps[1 := BystanderAt(pc')]
             && t == PartyStep(s, 1, false).(ps := [VipRiding(), BystanderAt(pc')])
    ensures Reaches(cfg, t)
  {
    var s := Following(cfg, Receive, pc, created, waiting, entry);
    assert s.ps[1 := BystanderAt(pc')] == [VipRiding(), BystanderAt(pc')];
    Go(cfg, s, PartyMove(1, false), t);
  }

  lemma SecondArrives(cfg: Config)
    requires Cramped(cfg)
    ensures Reaches(cfg, Following(cfg, Receive, EnterCheck(0), 2, 0, 1))
  {
    FullBusStays(cfg);
    FollowsFrom(cfg, Spawned, 1, 0, 1, Arrived, Following(cfg, Receive, Arrived, 1, 0, 1));
    FollowsFrom(cfg, Arrived, 1, 0, 1, CheckClosed, Following(cfg, Receive, CheckClosed, 2, 0, 1));
    FollowsFrom(cfg, CheckClosed, 2, 0, 1, EnterCheck(0), Following(cfg, Receive, EnterCheck(0), 2, 0, 1));
  }

  lemma SecondEnters(cfg: Config)
    requires Cramped(cfg)
    ensures Reaches(cfg, Following(cfg, Receive, LeaveEntry(0, true), 2, 1, 0))
  {
    SecondArrives(cfg);
    FollowsFrom(cfg, EnterCheck(0), 2, 0, 1, AwaitEntry(0), Following(cfg, Receive, AwaitEntry(0), 2, 0, 1));
    FollowsFrom(cfg, AwaitEntry(0), 2, 0, 1, AtEntry(0), Following(cfg, Receive, AtEntry(0), 2, 0, 0));
    FollowsFrom(cfg, AtEntry(0), 2, 0, 0, LeaveEntry(0, true), Following(cfg, Receive, LeaveEntry(0, true), 2, 1, 0));
  }

  lemma SecondFindsBus(cfg: Config)
    requires Cramped(cfg)
    ensures Reaches(cfg, Following(cfg, Receive, AwaitBoardSlot(0), 2, 1, 1))
  {
    SecondEnters(cfg);
    FollowsFrom(cfg, LeaveEntry(0, true), 2, 1, 0, BoardCheck, Following(cfg, Receive, BoardCheck, 2, 1, 1));
    FollowsFrom(cfg, BoardCheck, 2, 1, 1, FindBus, Following(cfg, Receive, FindBus, 2, 1, 1));
    FollowsFrom(cfg, FindBus, 2, 1, 1, AwaitBoardSlot(0), Following(cfg, Receive, AwaitBoardSlot(0), 2, 1, 1));
  }

  /** The other party has asked to board the full bus; the driver is at pc. */
  function Asking(cfg: Config, pc: DriverPc, q: seq<BoardingRequest>): State {
    Following(cfg, pc, AwaitBoard, 2, 1, 1).(boardSlots := cfg.boardingLimit - 2, boardQ := q)
  }

  lemma SecondAsks(cfg: Config)
    requires Cramped(cfg)
    ensures Reaches(cfg, Asking(cfg, Receive, [SecondRequest()]))
  {
    SecondFindsBus(cfg);
    var s := Following(cfg, Receive, SendBoard(0), 2, 1, 1).(boardSlots := cfg.boardingLimit - 2);
    FollowsFrom(cfg, AwaitBoardSlot(0), 2, 1, 1, SendBoard(0), s);
    assert s.ps[1 := BystanderAt(AwaitBoard)] == [VipRiding(), BystanderAt(AwaitBoard)];
    assert [] + [SecondRequest()] == [SecondRequest()];
    Go(cfg, s, PartyMove(1, false), Asking(cfg, Receive, [SecondRequest()]));
  }

  /** The driver holds the request when the dispatcher is told to stop. */
  lemma DriverHolds(cfg: Config)
    requires Cramped(cfg)
    ensures Reaches(cfg, Asking(cfg, Process(SecondRequest()), []).(dispatcher := Ending))
  {
    SecondAsks(cfg);
    assert Receivable([SecondRequest()], 0, MSG_BOARD_REQUEST);
    assert RemoveAt([SecondRequest()], 0) == [];
    Singles(FULL_BUS, FULL_BUS, DriverAt(Receive), DriverAt(Process(SecondRequest())), 0, 0);
    var s := Asking(cfg, Process(SecondRequest()), []);
    DriverGoes(cfg, Asking(cfg, Receive, [SecondRequest()]), false, s);
    Go(cfg, s, TerminateSignal, s.(dispatcher := Ending));
  }

  /** After the shutdown: the first party is still aboard, and no longer counted. */
  function Cleared(cfg: Config, b: Bus, pc: DriverPc, door: int): State {
    Asking(cfg, pc, []).(shm := Record(b, 1, 0, 2, 2, 1, 1, 1).(running := false), passengerDoor := door,
                         ds := [Driver(pc, true, false, false, 1, 0)], dispatcher := Ended)
  }

  lemma ShutdownClears(cfg: Config)
    requires Cramped(cfg)
    ensures Reaches(cfg, Cleared(cfg, OPEN_BUS, Process(SecondRequest()), 1))
  {
    DriverHolds(cfg);
    var s := Asking(cfg, Process(SecondRequest()), []).(dispatcher := Ending);
    var t := Cleared(cfg, OPEN_BUS, Process(SecondRequest()), 1);
    PairSum(FoldedLoad, FULL_BUS, FULL_BUS);
    PairSum(LoadTravelling, FULL_BUS, FULL_BUS);
    assert Shutdown(s.shm).buses == [OPEN_BUS] && FoldTrips(s) == t.ds;
    Go(cfg, s, ShutDown, t);
  }

  lemma DriverApprovesSecond(cfg: Config)
    requires Cramped(cfg)
    ensures Reaches(cfg, Cleared(cfg, BUSY_BUS, AwaitDoor(SecondRequest()), 1))
  {
    ShutdownClears(cfg);
    var s := Cleared(cfg, OPEN_BUS, Process(SecondRequest()), 1);
    var t := Cleared(cfg, BUSY_BUS, AwaitDoor(SecondRequest()), 1);
    Singles(OPEN_BUS, BUSY_BUS, s.ds[0], t.ds[0], 0, 0);
    DriverGoes(cfg, s, false, t);
  }

  lemma DriverAdmitsSecond(cfg: Config)
    requires Cramped(cfg)
    ensures Reaches(cfg, Cleared(cfg, BUSY_BUS, AtDoor(SecondRequest()), 0))
  {
    DriverApprovesSecond(cfg);
    var t := Cleared(cfg, BUSY_BUS, AwaitDoor(SecondRequest()), 1);
    var u := Cleared(cfg, BUSY_BUS, AtDoor(SecondRequest()), 0);
    Singles(BUSY_BUS, BUSY_BUS, t.ds[0], u.ds[0], 0, 0);
    DriverGoes(cfg, t, false, u);
  }

  function SecondRiding(): Party { BystanderAt(AwaitBoard).(rides := [Ride(0, 1, 0)]) }

  function Overfull(cfg: Config): State {
    Cleared(cfg, FULL_BUS, LeaveDoor(SecondRequest()), 0).(
      shm := Record(FULL_BUS, 1, 0, 2, 2, 0, 2, 1).(running := false), ps := [VipRiding(), SecondRiding()])
  }

  lemma SecondSits(cfg: Config)
    requires Cramped(cfg)
    ensures Reaches(cfg, Overfull(cfg))
  {
    DriverAdmitsSecond(cfg);
    var s := Cleared(cfg, BUSY_BUS, AtDoor(SecondRequest()), 0);
    assert [] + [Ride(0, 1, 0)] == [Ride(0, 1, 0)];
    assert [VipRiding(), BystanderAt(AwaitBoard)][1 := SecondRiding()] == [VipRiding(), SecondRiding()];
    Singles(BUSY_BUS, FULL_BUS, s.ds[0], Overfull(cfg).ds[0], 0, 0);
    DriverGoes(cfg, s, false, Overfull(cfg));
  }

  /** So the bus with one seat takes a second person: it has not departed, and both ride on its first journey. */
  lemma BusMayOverfill(cfg: Config) returns (run: seq<State>)
    requires Cramped(cfg)
    ensures IsRun(cfg, run)
    ensures var s := run[|run| - 1];
            |s.ds| == 1 && s.ds[0].journey == 0 && Riding(s, 0, 0) == 2 > cfg.seats && !PeopleFit(cfg, s)
  {
    SecondSits(cfg);
    run :| IsRun(cfg, run) && run[|run| - 1] == Overfull(cfg);
    PairSum(OnJourney(0, 0), VipRiding(), SecondRiding());
    assert Riding(Overfull(cfg), 0, 0) == 2;
  }

  // --- the drain branch ---

  function Arrival(pc: PartyPc): Party {
    Party(Vip().(isVip := false, hasTicket := false), pc, 0, 0, 0, [])
  }

  /** One bus, one party. */
  function Quiet(cfg: Config, m: Shared, pc: PartyPc, dispatcher: DispatcherPc): State {
    State(m, [Arrival(pc)], [DriverAt(Unregistered)], [], dispatcher, 1, 1, 1, cfg.ticketLimit, cfg.boardingLimit,
          [], [], [], [], false, false, 0)
  }

  /** The party has been counted and not yet joined the ticket office, and no more will come. */
  function Abandoned(): Shared {
    InitialShared(1, 0).(created := 1, adults := 1, spawningStopped := true)
  }

  lemma AbandonedArrives(cfg: Config)
    ensures Reaches(cfg, Quiet(cfg, InitialShared(1, 0), Arrived, Loop))
  {
    var s0 := Quiet(cfg, InitialShared(1, 0), Spawned, Loop);
    var run := [s0];
    assert IsRun(cfg, run) && run[|run| - 1] == s0;
    assert [Arrival(Spawned)][0 := Arrival(Arrived)] == [Arrival(Arrived)];
    Go(cfg, s0, PartyMove(0, false), Quiet(cfg, InitialShared(1, 0), Arrived, Loop));
  }

  lemma AbandonedRun(cfg: Config)
    ensures Reaches(cfg, Quiet(cfg, Abandoned(), WantsTicket, Loop))
  {
    AbandonedArrives(cfg);
    var s1 := Quiet(cfg, InitialShared(1, 0), Arrived, Loop);
    var s2 := Quiet(cfg, Abandoned().(spawningStopped := false), WantsTicket, Loop);
    assert [Arrival(Arrived)][0 := Arrival(WantsTicket)] == [Arrival(WantsTicket)];
    Go(cfg, s1, PartyMove(0, false), s2);
    Go(cfg, s2, SpawningStops, s2.(shm := Abandoned()));
  }

  lemma AbandonedBooks(cfg: Config)
    ensures var s := Quiet(cfg, Abandoned(), WantsTicket, Loop);
            DrainBranch(s.shm) && Between(s) == 1 && PrintedSum(Shutdown(s.shm)) == 0
  {
    var m := Abandoned();
    assert m.buses == [IdleBus()] && Shutdown(m).buses == [IdleBus()];
    PairSum(BetweenSeats, Arrival(WantsTicket), Arrival(WantsTicket));
    PairSum(FoldedLoad, IdleBus(), IdleBus());
    PairSum(OnBus, IdleBus(), IdleBus());
  }

  /** The dispatcher may end the simulation while a counted party has not yet queued for its ticket, and the
      statistics printed after the shutdown then disagree with `created`. */
  lemma DrainBranchMayAbandon(cfg: Config) returns (run: seq<State>)
    ensures IsRun(cfg, run) && |run| >= 3
    ensures var s := run[|run| - 3]; s.dispatcher == Loop && s.shm.running && DrainBranch(s.shm) && Between(s) == 1
    ensures var t := run[|run| - 1]; t.dispatcher == Ended && PrintedSum(t.shm) + 1 == t.shm.created
  {
    AbandonedRun(cfg);
    AbandonedBooks(cfg);
    var s := Quiet(cfg, Abandoned(), WantsTicket, Loop);
    run :| IsRun(cfg, run) && run[|run| - 1] == s;
    var ending := s.(dispatcher := Ending);
    run := Extend(cfg, run, EndTest, ending);
    run := Extend(cfg, run, ShutDown, Apply(cfg, ending, ShutDown));
  }

  // --- the start-up race ---

  /** Two buses, no parties and no offices. */
  function Depot(cfg: Config, b: Bus, c: Bus, pid0: int, pid1: int, active: int, pc0: DriverPc, pc1: DriverPc): State {
    State(InitialShared(2, 0).(buses := [b, c], driverPids := [pid0, pid1], active := active),
          [], [DriverAt(pc0), Driver(pc1, active == 1, false, false, 0, 0)], [],
          Loop, 1, 1, 1, cfg.ticketLimit, cfg.boardingLimit, [], [], [], [], false, false, 0)
  }

  lemma Pairs(b: Bus, c: Bus, c': Bus, d: Driver, e: Driver, e': Driver, n: int, o: int, o': int)
    ensures [b, c][1 := c'] == [b, c'] && [d, e][1 := e'] == [d, e'] && [n, o][1 := o'] == [n, o']
    ensures [b, c][0 := c'] == [c', c] && [d, e][0 := e'] == [e', e] && [n, o][0 := o'] == [o', o]
  {
  }

  /** The driver of bus 1 registers before that of bus 0. */
  lemma SecondRegisters(cfg: Config)
    ensures Reaches(cfg, Depot(cfg, IdleBus(), OPEN_BUS, 0, 2, 0, Unregistered, Check))
  {
    var s0 := Depot(cfg, IdleBus(), IdleBus(), 0, 0, 0, Unregistered, Unregistered);
    assert s0.shm == InitialShared(2, 0) by {
      assert [IdleBus(), IdleBus()] == seq(2, i => IdleBus()) && [0, 0] == seq(2, i => 0);
    }
    var run := [s0];
    assert IsRun(cfg, run) && run[|run| - 1] == s0;
    var t := Depot(cfg, IdleBus(), OPEN_BUS, 0, 2, 0, Unregistered, Check);
    Pairs(IdleBus(), IdleBus(), OPEN_BUS, s0.ds[0], s0.ds[1], t.ds[1], 0, 0, 2);
    Go(cfg, s0, DriverMove(1, false), t);
  }

  /** The watchdog finds bus 0 without a driver and makes bus 1 active. */
  lemma WatchdogPrefersSecond(cfg: Config)
    ensures var t := Depot(cfg, IdleBus(), OPEN_BUS, 0, 2, 1, Unregistered, Check);
            Reaches(cfg, t.(ds := [DriverAt(Unregistered), Driver(Check, false, false, false, 0, 0)]))
  {
    SecondRegisters(cfg);
    var s := Depot(cfg, IdleBus(), OPEN_BUS, 0, 2, 0, Unregistered, Check);
    var dead := [false, false];
    var c := ClearDead(s.shm, dead);
    assert c.buses == s.shm.buses && c.driverPids == s.shm.driverPids;
    assert FirstLive(s.shm.driverPids, s.shm.buses) == 1;
    Pairs(IdleBus(), OPEN_BUS, OPEN_BUS, s.ds[0], s.ds[1], s.ds[1], 0, 2, 2);
    Go(cfg, s, WatchdogRound(dead), s.(shm := s.shm.(active := 1)));
  }

  /** Its driver waits for requests. */
  lemma SecondWorks(cfg: Config)
    requires !cfg.perf
    ensures Reaches(cfg, Depot(cfg, IdleBus(), OPEN_BUS, 0, 2, 1, Unregistered, Receive))
  {
    WatchdogPrefersSecond(cfg);
    var t := Depot(cfg, IdleBus(), OPEN_BUS, 0, 2, 1, Unregistered, Receive);
    var d := Driver(Check, false, false, false, 0, 0);
    var s0 := t.(ds := [DriverAt(Unregistered), d]);
    var s1 := s0.(ds := [DriverAt(Unregistered), d.(pc := ReadState)]);
    Pairs(OPEN_BUS, OPEN_BUS, OPEN_BUS, DriverAt(Unregistered), d, d.(pc := ReadState), 0, 0, 0);
    Go(cfg, s0, DriverMove(1, false), s1);
    Pairs(OPEN_BUS, OPEN_BUS, OPEN_BUS, DriverAt(Unregistered), d.(pc := ReadState), t.ds[1], 0, 0, 0);
    Go(cfg, s1, DriverMove(1, false), t);
  }

  /** Only then the driver of bus 0 registers, takes the active bus and waits for requests as well: the two drivers
      now work at the same time. */
  lemma TwoBusesMayWork(cfg: Config) returns (run: seq<State>)
    requires !cfg.perf
    ensures IsRun(cfg, run)
    ensures var s := run[|run| - 1];
            && s.ds == [DriverAt(Receive), DriverAt(Receive)] && s.shm.driverPids == [1, 2]
            && !OnlyActiveWorks(s)
  {
    SecondWorks(cfg);
    var s0 := Depot(cfg, IdleBus(), OPEN_BUS, 0, 2, 1, Unregistered, Receive);
    var second := DriverAt(Receive);
    var s1 := Depot(cfg, OPEN_BUS, OPEN_BUS, 1, 2, 0, Check, Receive).(ds := [DriverAt(Check), second]);
    Pairs(IdleBus(), OPEN_BUS, OPEN_BUS, DriverAt(Unregistered), second, DriverAt(Check), 0, 2, 1);
    Go(cfg, s0, DriverMove(0, false), s1);
    var s2 := s1.(ds := [DriverAt(ReadState), second]);
    Pairs(OPEN_BUS, OPEN_BUS, OPEN_BUS, DriverAt(Check), second, DriverAt(ReadState), 0, 0, 0);
    Go(cfg, s1, DriverMove(0, false), s2);
    var s3 := s1.(ds := [DriverAt(Receive), second]);
    Pairs(OPEN_BUS, OPEN_BUS, OPEN_BUS, DriverAt(ReadState), second, DriverAt(Receive), 0, 0, 0);
    Go(cfg, s2, DriverMove(0, false), s3);
    assert AtWork(s3.ds[1].pc) && !s3.ds[1].crashed && s3.shm.active == 0;
    run :| IsRun(cfg, run) && run[|run| - 1] == s3;
  }
}
