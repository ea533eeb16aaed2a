/** The active bus: the fleet is never stranded, although switching and departing are separate regions
    that race with crashes and with the watchdog. */
module Fleet {
  import opened Domain
  import opened SharedRecord
  import opened Protocol
  import opened Invariants
  import opened Reachability
  import opened Frames

  predicate AllRegistered(s: State) {
    forall g :: 0 <= g < |s.ds| ==> !s.ds[g].pc.Unregistered?
  }

  predicate Live(m: Shared, d: Driver, g: nat) {
    g < |m.driverPids| && m.driverPids[g] > 0 && !d.crashed
  }

  /** On its way out, or away. */
  predicate Leaving(pc: DriverPc) {
    pc.EntranceClear? || pc.Leave? || pc.Travelling?
  }

  /** No active bus only while every live bus is departing or travelling. */
  predicate NotStranded(m: Shared, ds: seq<Driver>) {
    m.active == -1 ==> forall g :: 0 <= g < |ds| && Live(m, ds[g], g) ==> Leaving(ds[g].pc)
  }

  predicate Served(s: State) { AllRegistered(s) && NotStranded(s.shm, s.ds) }

  // --- what a driver's own step does to the active bus ---

  lemma SwitchStep(cfg: Config, s: State, g: nat, due: bool)
    requires Dimensions(s) && g < |s.ds| && DriverEnabled(s, g) && s.ds[g].pc.Switch?
    ensures var t := DriverStep(cfg, s, g, due);
            && t.ds == s.ds[g := s.ds[g].(pc := EntranceClear(false))]
            && t.shm == s.shm.(active := NextBus(s.shm.buses, g))
  {
  }

  /** Every return leaves `active` naming a bus at the station: the returning one if the old one is not there. */
  lemma ReturnStep(cfg: Config, s: State, g: nat, due: bool)
    requires Dimensions(s) && g < |s.ds| && DriverEnabled(s, g) && s.ds[g].pc.Travelling?
    ensures var t := DriverStep(cfg, s, g, due);
            && Dimensions(t) && t.shm.active >= 0 && t.shm.buses[t.shm.active].atStation
            && (t.shm.active == g || t.shm.active == s.shm.active)
            && !t.ds[g].pc.Unregistered?
  {
  }

  /** The states whose steps write neither a bus nor a door. */
  predicate Reads(pc: DriverPc) {
    pc.Check? || pc.FinalCheck? || pc.ReadState? || pc.DepartCheck? || pc.Receive? || pc.Answer? || pc.EntranceClear?
  }

  lemma ReadingStep(cfg: Config, s: State, g: nat, due: bool)
    requires Dimensions(s) && g < |s.ds| && DriverEnabled(s, g) && Reads(s.ds[g].pc)
    ensures DriverStep(cfg, s, g, due).shm.active == s.shm.active
  {
  }

  lemma OtherStep(cfg: Config, s: State, g: nat, due: bool)
    requires Dimensions(s) && g < |s.ds| && DriverEnabled(s, g)
    requires !s.ds[g].pc.Switch? && !s.ds[g].pc.Travelling? && !s.ds[g].pc.Unregistered?
    ensures DriverStep(cfg, s, g, due).shm.active == s.shm.active
  {
    if Reads(s.ds[g].pc) { ReadingStep(cfg, s, g, due); }
  }

  lemma StaysRegistered(cfg: Config, s: State, g: nat, due: bool)
    requires Dimensions(s) && g < |s.ds| && DriverEnabled(s, g)
    ensures !DriverStep(cfg, s, g, due).ds[g].pc.Unregistered?
  {
  }

  lemma LeavingStep(cfg: Config, s: State, g: nat, due: bool)
    requires Dimensions(s) && g < |s.ds| && DriverEnabled(s, g) && (s.ds[g].pc.EntranceClear? || s.ds[g].pc.Leave?)
    ensures Leaving(DriverStep(cfg, s, g, due).ds[g].pc)
  {
  }

  /** A driver that runs is registered, so with no active bus it is leaving. */
  lemma RunningMeansLeaving(cfg: Config, s: State, g: nat)
    requires Inv(cfg, s) && Served(s) && g < |s.ds| && DriverEnabled(s, g) && s.shm.active == -1
    ensures Leaving(s.ds[g].pc)
  {
    assert BusOk(cfg, s.shm.buses[g], s.shm.driverPids[g], s.ds[g]);
  }

  /** A driver gives up the active bus to nobody only if every other bus is away. */
  lemma SwitchServes(cfg: Config, s: State, g: nat, due: bool)
    requires Inv(cfg, s) && Served(s) && g < |s.ds| && DriverEnabled(s, g) && s.ds[g].pc.Switch?
    ensures Served(DriverStep(cfg, s, g, due))
    ensures DriverStep(cfg, s, g, due).shm.active == -1 <==>
              forall h :: 0 <= h < |s.ds| && h != g ==> s.ds[h].pc.Travelling?
  {
    var t := DriverStep(cfg, s, g, due);
    SwitchStep(cfg, s, g, due);
    SwitchMeaning(s.shm.buses, g);
    forall h | 0 <= h < |s.ds| ensures s.shm.buses[h].atStation <==> !s.ds[h].pc.Travelling? {
      assert BusOk(cfg, s.shm.buses[h], s.shm.driverPids[h], s.ds[h]);
    }
  }

  lemma WorkServes(cfg: Config, s: State, g: nat, due: bool)
    requires Inv(cfg, s) && Served(s) && g < |s.ds| && DriverEnabled(s, g)
    requires !s.ds[g].pc.AtDoor? && !s.ds[g].pc.Switch?
    ensures Served(DriverStep(cfg, s, g, due))
  {
    DriverFrame(cfg, s, g, due);
    if s.ds[g].pc.Travelling? {
      ReturnStep(cfg, s, g, due);
    } else {
      OtherStep(cfg, s, g, due);
      StaysRegistered(cfg, s, g, due);
      if s.shm.active == -1 {
        RunningMeansLeaving(cfg, s, g);
        LeavingStep(cfg, s, g, due);
      }
    }
  }

  lemma SeatServes(cfg: Config, s: State, g: nat, due: bool)
    requires Inv(cfg, s) && Served(s) && g < |s.ds| && DriverEnabled(s, g) && s.ds[g].pc.AtDoor?
    ensures Served(DriverStep(cfg, s, g, due))
  {
    SeatFrame(cfg, s, g, due);
    OtherStep(cfg, s, g, due);
    StaysRegistered(cfg, s, g, due);
    if s.shm.active == -1 {
      RunningMeansLeaving(cfg, s, g);
    }
  }

  lemma DriverServes(cfg: Config, s: State, g: nat, due: bool)
    requires Inv(cfg, s) && Served(s) && g < |s.ds| && DriverEnabled(s, g)
    ensures Served(DriverStep(cfg, s, g, due))
  {
    if s.ds[g].pc.AtDoor? {
      SeatServes(cfg, s, g, due);
    } else if s.ds[g].pc.Switch? {
      SwitchServes(cfg, s, g, due);
    } else {
      WorkServes(cfg, s, g, due);
    }
  }

  // --- the watchdog ---

  lemma ClearedAtStation(cfg: Config, s: State, dead: seq<bool>, g: nat)
    requires Inv(cfg, s) && |dead| == |s.ds| && g < |s.ds|
    ensures ClearDead(s.shm, dead).buses[g].atStation <==> !s.ds[g].pc.Travelling?
  {
    assert BusOk(cfg, s.shm.buses[g], s.shm.driverPids[g], s.ds[g]);
  }

  /** The watchdog takes the active bus away only for want of a bus at the station whose driver still has its pid,
      and whatever it makes active stands at the station with a driver that is registered. */
  lemma WatchdogChoice(cfg: Config, s: State, dead: seq<bool>)
    requires Inv(cfg, s) && Enabled(s, WatchdogRound(dead))
    ensures var m := s.shm; var m' := Apply(cfg, s, WatchdogRound(dead)).shm;
            && (m'.active == -1 && m.active != -1 ==>
                  forall g :: 0 <= g < |s.ds| && m'.driverPids[g] > 0 ==> s.ds[g].pc.Travelling?)
            && (m'.active != m.active && m'.active != -1 ==>
                  m'.driverPids[m'.active] > 0 && !s.ds[m'.active].pc.Travelling?)
  {
    forall g | 0 <= g < |s.ds| ensures ClearDead(s.shm, dead).buses[g].atStation <==> !s.ds[g].pc.Travelling? {
      ClearedAtStation(cfg, s, dead, g);
    }
  }

  lemma WatchdogServes(cfg: Config, s: State, dead: seq<bool>)
    requires Inv(cfg, s) && Served(s) && Enabled(s, WatchdogRound(dead))
    ensures Served(Apply(cfg, s, WatchdogRound(dead)))
  {
    var c := ClearDead(s.shm, dead);
    var m' := Watchdog(s.shm, dead);
    if m'.active == -1 {
      forall g | 0 <= g < |s.ds| && Live(m', s.ds[g], g) ensures Leaving(s.ds[g].pc) {
        assert m'.driverPids == c.driverPids && c.buses[g].atStation == s.shm.buses[g].atStation;
        if s.shm.active != -1 {
          WatchdogChoice(cfg, s, dead);
        } else {
          assert Live(s.shm, s.ds[g], g);
        }
      }
    }
  }

  lemma EnvironmentServes(cfg: Config, s: State, step: Step)
    requires Inv(cfg, s) && Served(s) && Enabled(s, step)
    requires IsQuietEnvironment(step) || step.ClosingSignal? || step.ShutDown?
    ensures Served(Apply(cfg, s, step))
  {
    var t := Apply(cfg, s, step);
    if IsQuietEnvironment(step) {
      EnvironmentFrame(cfg, s, step);
      EnvironmentDrivers(cfg, s, step);
    } else if step.ShutDown? {
      ShutdownFrame(cfg, s);
    }
    forall g | 0 <= g < |t.ds|
      ensures !t.ds[g].pc.Unregistered? && (Live(t.shm, t.ds[g], g) ==> Live(s.shm, s.ds[g], g))
    {
    }
  }

  lemma StepServes(cfg: Config, s: State, step: Step)
    requires Inv(cfg, s) && Served(s) && Enabled(s, step)
    ensures Served(Apply(cfg, s, step))
  {
    if step.PartyMove? {
      PartyFrame(cfg, s, step.i, step.childFails);
    } else if step.DriverMove? {
      DriverServes(cfg, s, step.g, step.due);
    } else if step.OfficeMove? {
      OfficeFrame(cfg, s, step.k);
    } else if step.WatchdogRound? {
      WatchdogServes(cfg, s, step.dead);
    } else {
      EnvironmentServes(cfg, s, step);
    }
  }

  lemma ServesAt(cfg: Config, run: seq<State>, k: nat)
    requires IsRun(cfg, run) && k + 1 < |run| && Served(run[k])
    ensures Served(run[k + 1])
  {
    RunStep(cfg, run, k);
    var step :| Enabled(run[k], step) && run[k + 1] == Apply(cfg, run[k], step);
    StepServes(cfg, run[k], step);
  }

  /** From any state in which all drivers have registered and a bus is active, the fleet is never stranded again:
      whenever no bus is active, every live bus is departing or away, and so will claim the station on its return. */
  lemma {:induction false} NeverStranded(cfg: Config, run: seq<State>, a: nat, b: nat)
    requires IsRun(cfg, run) && a <= b < |run| && AllRegistered(run[a]) && run[a].shm.active != -1
    ensures Served(run[b])
    decreases b - a
  {
    if a < b {
      NeverStranded(cfg, run, a, b - 1);
      ServesAt(cfg, run, b - 1);
    }
  }

  /** A bus open for boarding is exactly one at the station with a registered driver: the watchdog, crashes,
      departures and returns never leave a door open behind a missing bus or closed before a waiting one. */
  lemma OpenExactlyWhenServed(cfg: Config, run: seq<State>, k: nat, g: nat)
    requires IsRun(cfg, run) && k < |run| && g < |run[k].ds|
    ensures Dimensions(run[k])
    ensures run[k].shm.buses[g].boardingOpen <==> run[k].shm.driverPids[g] > 0 && run[k].shm.buses[g].atStation
    ensures run[k].shm.buses[g].atStation <==> !run[k].ds[g].pc.Travelling?
    ensures run[k].shm.driverPids[g] == 0 ==>
              run[k].ds[g].pc.Unregistered? || run[k].ds[g].pc.Done? || run[k].ds[g].crashed
  {
    RunHolds(cfg, run, k);
    assert BusOk(cfg, run[k].shm.buses[g], run[k].shm.driverPids[g], run[k].ds[g]);
  }

  // --- one bus at a time ---

  /** Between finding itself active and giving the active bus up. */
  predicate AtWork(pc: DriverPc) {
    || pc.DepartCheck? || pc.Receive? || pc.Process? || pc.AwaitDoor? || pc.AtDoor? || pc.LeaveDoor? || pc.Answer?
    || pc.Switch?
  }

  /** Only the active bus takes passengers: a live driver at work is the active one. */
  predicate OnlyActiveWorks(s: State) {
    forall g :: 0 <= g < |s.ds| && AtWork(s.ds[g].pc) && !s.ds[g].crashed ==> s.shm.active == g
  }

  /** From s to t bus 0 registers, which makes it active without a look, while another live driver works. */
  predicate LateFirst(s: State, t: State) {
    && |s.ds| > 0 && |t.ds| > 0 && s.ds[0].pc.Unregistered? && !t.ds[0].pc.Unregistered?
    && exists g :: 0 < g < |s.ds| && AtWork(s.ds[g].pc) && !s.ds[g].crashed
  }

  /** A driver starts to work only on finding itself active. */
  lemma StartsWhenActive(cfg: Config, s: State, g: nat, due: bool)
    requires Dimensions(s) && g < |s.ds| && DriverEnabled(s, g) && !AtWork(s.ds[g].pc)
    ensures AtWork(DriverStep(cfg, s, g, due).ds[g].pc) ==> s.ds[g].pc.ReadState? && s.shm.active == g
  {
    if !s.ds[g].pc.ReadState? { StaysIdle(cfg, s, g, due); }
  }

  lemma StaysIdle(cfg: Config, s: State, g: nat, due: bool)
    requires Dimensions(s) && g < |s.ds| && DriverEnabled(s, g) && !AtWork(s.ds[g].pc) && !s.ds[g].pc.ReadState?
    ensures !AtWork(DriverStep(cfg, s, g, due).ds[g].pc)
  {
    if Reads(s.ds[g].pc) { StaysIdleReading(cfg, s, g, due); }
  }

  lemma StaysIdleReading(cfg: Config, s: State, g: nat, due: bool)
    requires Dimensions(s) && g < |s.ds| && DriverEnabled(s, g)
    requires s.ds[g].pc.Check? || s.ds[g].pc.FinalCheck? || s.ds[g].pc.EntranceClear?
    ensures !AtWork(DriverStep(cfg, s, g, due).ds[g].pc)
  {
  }

  /** Registration moves the active bus only for bus 0. */
  lemma RegisterStep(cfg: Config, s: State, g: nat, due: bool)
    requires Dimensions(s) && g < |s.ds| && DriverEnabled(s, g) && s.ds[g].pc.Unregistered? && g > 0
    ensures DriverStep(cfg, s, g, due).shm.active == s.shm.active
  {
  }

  lemma FirstRegisters(cfg: Config, s: State, due: bool)
    requires Dimensions(s) && |s.ds| > 0 && DriverEnabled(s, 0) && s.ds[0].pc.Unregistered?
    ensures var t := DriverStep(cfg, s, 0, due); t.shm.active == 0 && t.ds == s.ds[0 := s.ds[0].(pc := Check)]
  {
  }

  /** A return takes the active bus from nobody at work: an active bus whose driver works stands at the station. */
  lemma ReturnTakesNothing(cfg: Config, s: State, g: nat, due: bool)
    requires Inv(cfg, s) && OnlyActiveWorks(s) && g < |s.ds| && DriverEnabled(s, g) && s.ds[g].pc.Travelling?
    ensures forall h :: 0 <= h < |s.ds| && AtWork(s.ds[h].pc) && !s.ds[h].crashed ==>
              DriverStep(cfg, s, g, due).shm.active == h
  {
    var a := s.shm.active;
    if 0 <= a < |s.ds| && AtWork(s.ds[a].pc) {
      assert BusOk(cfg, s.shm.buses[a], s.shm.driverPids[a], s.ds[a]);
    }
  }

  /** A driver's step other than bus 0's registration. */
  lemma DriverExclusive(cfg: Config, s: State, g: nat, due: bool)
    requires Inv(cfg, s) && OnlyActiveWorks(s) && g < |s.ds| && DriverEnabled(s, g) && !s.ds[g].pc.AtDoor?
    requires !(g == 0 && s.ds[g].pc.Unregistered?)
    ensures OnlyActiveWorks(DriverStep(cfg, s, g, due))
  {
    DriverFrame(cfg, s, g, due);
    if s.ds[g].pc.Switch? {
      SwitchStep(cfg, s, g, due);
    } else {
      if s.ds[g].pc.Travelling? {
        ReturnTakesNothing(cfg, s, g, due);
      } else if s.ds[g].pc.Unregistered? {
        RegisterStep(cfg, s, g, due);
      } else {
        OtherStep(cfg, s, g, due);
      }
      if !AtWork(s.ds[g].pc) {
        StartsWhenActive(cfg, s, g, due);
      }
    }
  }

  lemma SeatExclusive(cfg: Config, s: State, g: nat, due: bool)
    requires Inv(cfg, s) && OnlyActiveWorks(s) && g < |s.ds| && DriverEnabled(s, g) && s.ds[g].pc.AtDoor?
    ensures OnlyActiveWorks(DriverStep(cfg, s, g, due))
  {
    SeatFrame(cfg, s, g, due);
  }

  /** The watchdog takes the active bus from no live driver at work. */
  lemma WatchdogExclusive(cfg: Config, s: State, dead: seq<bool>)
    requires Inv(cfg, s) && OnlyActiveWorks(s) && Enabled(s, WatchdogRound(dead))
    ensures OnlyActiveWorks(Apply(cfg, s, WatchdogRound(dead)))
  {
    var c := ClearDead(s.shm, dead);
    var a := s.shm.active;
    if 0 <= a < |s.ds| && AtWork(s.ds[a].pc) && !s.ds[a].crashed {
      assert BusOk(cfg, s.shm.buses[a], s.shm.driverPids[a], s.ds[a]);
      assert c.driverPids[a] != 0 && Watchdog(s.shm, dead) == c;
    }
  }

  lemma EnvironmentExclusive(cfg: Config, s: State, step: Step)
    requires Inv(cfg, s) && OnlyActiveWorks(s) && Enabled(s, step)
    requires IsQuietEnvironment(step) || step.ClosingSignal? || step.ShutDown?
    ensures OnlyActiveWorks(Apply(cfg, s, step))
  {
    if IsQuietEnvironment(step) {
      EnvironmentFrame(cfg, s, step);
      EnvironmentDrivers(cfg, s, step);
    } else if step.ShutDown? {
      ShutdownFrame(cfg, s);
    }
  }

  predicate RegistersFirst(s: State, step: Step) {
    step.DriverMove? && step.g == 0 && |s.ds| > 0 && s.ds[0].pc.Unregistered?
  }

  lemma StepExclusive(cfg: Config, s: State, step: Step)
    requires Inv(cfg, s) && OnlyActiveWorks(s) && Enabled(s, step) && !RegistersFirst(s, step)
    ensures OnlyActiveWorks(Apply(cfg, s, step))
  {
    if step.PartyMove? {
      PartyFrame(cfg, s, step.i, step.childFails);
    } else if step.DriverMove? && s.ds[step.g].pc.AtDoor? {
      SeatExclusive(cfg, s, step.g, step.due);
    } else if step.DriverMove? {
      DriverExclusive(cfg, s, step.g, step.due);
    } else if step.OfficeMove? {
      OfficeFrame(cfg, s, step.k);
    } else if step.WatchdogRound? {
      WatchdogExclusive(cfg, s, step.dead);
    } else {
      EnvironmentExclusive(cfg, s, step);
    }
  }

  /** Bus 0 is registered by nobody but its own driver. */
  lemma OnlyItselfRegisters(cfg: Config, s: State, step: Step)
    requires Inv(cfg, s) && Enabled(s, step) && !RegistersFirst(s, step)
    ensures !LateFirst(s, Apply(cfg, s, step))
  {
    if |s.ds| > 0 && s.ds[0].pc.Unregistered? {
      if step.ShutDown? {
        ShutdownFrame(cfg, s);
      } else {
        BusFrame(cfg, s, step, 0);
      }
    }
  }

  /** Each step, from any reachable state in which only the active bus works, keeps it so if and only if it is not
      the late registration of bus 0. */
  lemma StepExclusiveIff(cfg: Config, s: State, step: Step)
    requires Inv(cfg, s) && OnlyActiveWorks(s) && Enabled(s, step)
    ensures OnlyActiveWorks(Apply(cfg, s, step)) <==> !LateFirst(s, Apply(cfg, s, step))
  {
    if RegistersFirst(s, step) {
      var t := DriverStep(cfg, s, 0, step.due);
      FirstRegisters(cfg, s, step.due);
      if LateFirst(s, t) {
        var g :| 0 < g < |s.ds| && AtWork(s.ds[g].pc) && !s.ds[g].crashed;
        assert t.ds[g] == s.ds[g];
      }
    } else {
      StepExclusive(cfg, s, step);
      OnlyItselfRegisters(cfg, s, step);
    }
  }

  lemma ExclusiveAt(cfg: Config, run: seq<State>, k: nat)
    requires IsRun(cfg, run) && k + 1 < |run| && OnlyActiveWorks(run[k])
    ensures OnlyActiveWorks(run[k + 1]) <==> !LateFirst(run[k], run[k + 1])
  {
    RunStep(cfg, run, k);
    var step :| Enabled(run[k], step) && run[k + 1] == Apply(cfg, run[k], step);
    StepExclusiveIff(cfg, run[k], step);
  }

  predicate NoLateFirst(run: seq<State>, n: nat) {
    forall k: nat :: k + 1 < |run| && k < n ==> !LateFirst(run[k], run[k + 1])
  }

  lemma {:induction false} ExclusiveUpTo(cfg: Config, run: seq<State>, n: nat)
    requires IsRun(cfg, run) && n < |run|
    ensures (forall k: nat :: k <= n ==> OnlyActiveWorks(run[k])) <==> NoLateFirst(run, n)
  {
    if n == 0 {
      assert Init(cfg, run[0]);
    } else {
      ExclusiveUpTo(cfg, run, n - 1);
      if forall k: nat :: k <= n - 1 ==> OnlyActiveWorks(run[k]) {
        ExclusiveAt(cfg, run, n - 1);
      }
    }
  }

  /** Only the active bus takes passengers throughout a run if and only if bus 0 never registers while another live
      driver works, although the active bus is read in one region and relied on in many later ones. */
  lemma OneBusAtATimeIff(cfg: Config, run: seq<State>)
    requires IsRun(cfg, run)
    ensures (forall k: nat :: k < |run| ==> OnlyActiveWorks(run[k]))
       <==> (forall k: nat :: k + 1 < |run| ==> !LateFirst(run[k], run[k + 1]))
  {
    var n := |run| - 1;
    ExclusiveUpTo(cfg, run, n);
    assert (forall k: nat :: k < |run| ==> OnlyActiveWorks(run[k]))
      <==> (forall k: nat :: k <= n ==> OnlyActiveWorks(run[k]));
  }

  /** And then no two live drivers ever work at the same time. */
  lemma OneBusAtATime(s: State, g: nat, h: nat)
    requires OnlyActiveWorks(s) && g < h < |s.ds| && AtWork(s.ds[g].pc) && AtWork(s.ds[h].pc)
    ensures s.ds[g].crashed || s.ds[h].crashed
  {
  }
}
