/** Where everybody is: people are conserved across counters and buses, and each counter counts what it says. */
module Conservation {
  import opened Sequences
  import opened Domain
  import opened SharedRecord
  import opened Protocol
  import opened Invariants
  import opened Parts
  import opened Reachability
  import DispatcherSteps

  /** Seats of the parties that are counted as created but stand in no station counter yet. */
  function Between(s: State): int { Sum(BetweenSeats, s.ps) }

  /** People still recorded on buses that have left, and so counted in `transported` as well. */
  function OffStation(s: State): int { Sum(LoadTravelling, s.shm.buses) }

  function AtStation(s: State): int { Sum(LoadAtStation, s.shm.buses) }

  function EverInside(p: Party): int { WaitingSeats(p) + RodeSeats(p) }
  function EverGone(p: Party): int { LeftSeats(p) + BetweenSeats(p) }

  /** Everyone created has exactly one fate: between counters, waiting, boarded, or left early. */
  lemma OneFateEach(p: Party, i: int, open: bool, running: bool)
    requires PartyOk(p, i, open, running)
    ensures CreatedSeats(p) == BetweenSeats(p) + WaitingSeats(p) + RodeSeats(p) + LeftSeats(p)
    ensures CreatedSeats(p) > 0 ==>
              multiset{BetweenSeats(p) > 0, WaitingSeats(p) > 0, RodeSeats(p) > 0, LeftSeats(p) > 0}[true] == 1
  {
  }

  lemma Balance(cfg: Config, s: State)
    requires Inv(cfg, s)
    ensures s.shm.created == Between(s) + s.shm.waiting + s.shm.boarded + s.shm.leftEarly
    ensures s.shm.created == s.shm.adults + s.shm.children
  {
    forall i | 0 <= i < |s.ps|
      ensures CreatedSeats(s.ps[i]) == EverInside(s.ps[i]) + EverGone(s.ps[i])
      ensures CreatedSeats(s.ps[i]) == CreatedAdults(s.ps[i]) + CreatedChildren(s.ps[i])
    {
      assert PartyOk(s.ps[i], i, s.shm.stationOpen, s.shm.running);
      OneFateEach(s.ps[i], i, s.shm.stationOpen, s.shm.running);
    }
    SumSplit(CreatedSeats, EverInside, EverGone, s.ps);
    SumSplit(EverInside, WaitingSeats, RodeSeats, s.ps);
    SumSplit(EverGone, LeftSeats, BetweenSeats, s.ps);
    SumSplit(CreatedSeats, CreatedAdults, CreatedChildren, s.ps);
  }

  /** Conservation of people, in every state of every run; before the shutdown the correction term is zero. */
  lemma PeopleConserved(cfg: Config, run: seq<State>, k: nat)
    requires IsRun(cfg, run) && k < |run|
    ensures var s := run[k]; var m := s.shm;
            && m.created + s.overcount == m.transported + m.waiting + AtStation(s) + m.leftEarly + Between(s)
            && (m.running ==> s.overcount == 0)
            && m.created == m.adults + m.children
  {
    RunHolds(cfg, run, k);
    Balance(cfg, run[k]);
  }

  /** Each counter is, in every state of every run, the number of people or parties it is named after. */
  lemma CountersMeanWhatTheySay(cfg: Config, run: seq<State>, k: nat)
    requires IsRun(cfg, run) && k < |run|
    ensures var s := run[k];
            && s.shm.waiting == Sum(WaitingSeats, s.ps) && s.shm.inOffice == Sum(InOffice, s.ps)
            && s.shm.leftEarly == Sum(LeftSeats, s.ps) && s.shm.boarded == Sum(RodeSeats, s.ps)
            && s.shm.waiting >= 0 && s.shm.inOffice >= 0 && s.shm.leftEarly >= 0 && s.shm.boarded >= 0
  {
    RunHolds(cfg, run, k);
    var s := run[k];
    forall i | 0 <= i < |s.ps|
      ensures WaitingSeats(s.ps[i]) >= 0 && InOffice(s.ps[i]) >= 0 && LeftSeats(s.ps[i]) >= 0 && RodeSeats(s.ps[i]) >= 0
    {
      assert PartyOk(s.ps[i], i, s.shm.stationOpen, s.shm.running);
    }
    SumNonNegative(WaitingSeats, s.ps);
    SumNonNegative(InOffice, s.ps);
    SumNonNegative(LeftSeats, s.ps);
    SumNonNegative(RodeSeats, s.ps);
  }

  /** The two clamps of `waiting` to zero never change a value: wherever seats are subtracted, they are there. */
  lemma AbandonNeverClamps(cfg: Config, s: State, i: nat)
    requires Inv(cfg, s) && i < |s.ps| && s.ps[i].pc.LeaveStation?
    ensures AbandonStation(s.shm, s.ps[i].info.seatCount).waiting == s.shm.waiting - s.ps[i].info.seatCount
  {
    assert PartyOk(s.ps[i], i, s.shm.stationOpen, s.shm.running);
    WaitingCovers(s.shm, s.ps, i);
  }

  lemma SeatNeverClamps(cfg: Config, s: State, g: nat)
    requires Inv(cfg, s) && g < |s.ds| && s.ds[g].pc.AtDoor?
    ensures var p := s.ds[g].pc.req.passenger;
            SeatPassenger(s.shm, g, p).waiting == s.shm.waiting - p.seatCount && p.seatCount > 0
  {
    var i := Serving(s.ds[g]) - 1;
    assert HeldOk(s.ps, s.ds[g], g);
    assert PartyOk(s.ps[i], i, s.shm.stationOpen, s.shm.running);
    WaitingCovers(s.shm, s.ps, i);
  }

  // --- the printed statistics and main's drain test ---

  /** How far the printed sum is from `created`: it misses the people between counters, counts office visits as
      people and travelling people twice, and keeps what the shutdown credited twice. */
  lemma PrintedSumGap(cfg: Config, run: seq<State>, k: nat)
    requires IsRun(cfg, run) && k < |run|
    ensures var s := run[k];
            s.shm.created - PrintedSum(s.shm) == Between(s) - s.shm.inOffice - OffStation(s) - s.overcount
  {
    var s := run[k];
    RunHolds(cfg, run, k);
    Balance(cfg, s);
    forall g | 0 <= g < |s.shm.buses| ensures s.shm.buses[g].passengerCount >= 0 {
      assert BusOk(cfg, s.shm.buses[g], s.shm.driverPids[g], s.ds[g]);
    }
    DispatcherSteps.FoldSplits(s.shm.buses);
  }

  /** The consistency check of the final statistics, made after the shutdown like any other time, succeeds exactly
      when the errors cancel. */
  lemma PrintedSumConsistentIff(cfg: Config, run: seq<State>, k: nat)
    requires IsRun(cfg, run) && k < |run|
    ensures PrintedSum(run[k].shm) == run[k].shm.created
       <==> Between(run[k]) == run[k].shm.inOffice + OffStation(run[k]) + run[k].overcount
  {
    PrintedSumGap(cfg, run, k);
  }

  /** main's drain test: it fires exactly when nobody waits, no ticket is pending, and the people between
      counters are as many as those counted twice. */
  lemma DrainCompleteIff(cfg: Config, run: seq<State>, k: nat)
    requires IsRun(cfg, run) && k < |run|
    ensures var s := run[k];
            DrainComplete(s.shm) <==>
              && s.shm.spawningStopped && s.shm.created > 0 && s.shm.waiting == 0 && s.shm.inOffice == 0
              && Between(s) == OffStation(s) + s.overcount
  {
    PrintedSumGap(cfg, run, k);
  }

  /** When check_simulation_end takes its drain branch, everyone who boarded has been transported, nobody waits,
      and the people neither transported nor left are exactly those between counters. */
  lemma DrainBranchMeans(cfg: Config, run: seq<State>, k: nat)
    requires IsRun(cfg, run) && k < |run| && run[k].shm.running && DrainBranch(run[k].shm)
    ensures var s := run[k];
            && s.shm.boarded == s.shm.transported && s.shm.waiting == 0 && s.shm.inOffice == 0
            && s.shm.created - s.shm.transported - s.shm.leftEarly == Between(s)
  {
    var s := run[k];
    RunHolds(cfg, run, k);
    CountersMeanWhatTheySay(cfg, run, k);
    Balance(cfg, s);
    SumZero(LoadAtStation, s.shm.buses);
  }

  predicate Settled(ps: seq<Party>) {
    forall i :: 0 <= i < |ps| && Counted(ps[i]) ==> Rode(ps[i]) || ps[i].pc.Gone?
  }

  lemma SettledMeans(ps: seq<Party>, open: bool, running: bool, i: nat)
    requires PartiesOk(ps, open, running) && i < |ps| && WaitingSeats(ps[i]) == 0
    ensures BetweenSeats(ps[i]) >= 0
    ensures BetweenSeats(ps[i]) == 0 <==> (Counted(ps[i]) ==> Rode(ps[i]) || ps[i].pc.Gone?)
  {
    assert PartyOk(ps[i], i, open, running);
  }

  lemma SettledIff(ps: seq<Party>, open: bool, running: bool)
    requires PartiesOk(ps, open, running) && Sum(WaitingSeats, ps) == 0
    ensures Settled(ps) <==> Sum(BetweenSeats, ps) == 0
  {
    forall i | 0 <= i < |ps| ensures WaitingSeats(ps[i]) >= 0 {
      assert PartyOk(ps[i], i, open, running);
    }
    SumZeroAll(WaitingSeats, ps);
    forall i | 0 <= i < |ps|
      ensures BetweenSeats(ps[i]) >= 0
      ensures BetweenSeats(ps[i]) == 0 <==> (Counted(ps[i]) ==> Rode(ps[i]) || ps[i].pc.Gone?)
    {
      SettledMeans(ps, open, running, i);
    }
    if Sum(BetweenSeats, ps) == 0 {
      SumZeroAll(BetweenSeats, ps);
    } else if forall i :: 0 <= i < |ps| ==> BetweenSeats(ps[i]) == 0 {
      SumZero(BetweenSeats, ps);
    }
  }

  /** So the drain branch leaves nobody behind exactly when the dispatcher, by comparing three counters it has
      at hand, would find everyone created transported or gone. */
  lemma DrainedForGoodIff(cfg: Config, run: seq<State>, k: nat)
    requires IsRun(cfg, run) && k < |run| && run[k].shm.running && DrainBranch(run[k].shm)
    ensures Settled(run[k].ps) <==> run[k].shm.created == run[k].shm.transported + run[k].shm.leftEarly
  {
    var s := run[k];
    RunHolds(cfg, run, k);
    DrainBranchMeans(cfg, run, k);
    SettledIff(s.ps, s.shm.stationOpen, s.shm.running);
  }
}
