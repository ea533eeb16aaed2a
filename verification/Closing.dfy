/** What closing the station promises: nobody enters any more, nobody who waits is abandoned, and sales stop. */
module Closing {
  import opened Sequences
  import opened Domain
  import opened SharedRecord
  import opened Protocol
  import opened Invariants
  import opened Reachability
  import opened Frames
  import opened Conservation

  // --- nobody enters, and nobody leaves unserved before the shutdown ---

  /** Where a party goes from outside, and where from inside, with the station closed. */
  lemma StaysOutside(s: State, i: nat, childFails: bool)
    requires i < |s.ps| && PartyEnabled(s, i) && !s.shm.stationOpen && !StageOf(s.ps[i].pc).Inside?
    requires PartyOk(s.ps[i], i, s.shm.stationOpen, s.shm.running)
    ensures !StageOf(PartyStep(s, i, childFails).ps[i].pc).Inside?
  {
  }

  lemma StaysInsideAnswered(s: State, i: nat, childFails: bool)
    requires i < |s.ps| && PartyEnabled(s, i) && s.ps[i].pc.BoardAnswered?
    ensures WaitingSeats(PartyStep(s, i, childFails).ps[i]) == WaitingSeats(s.ps[i])
  {
  }

  lemma StaysInside(s: State, i: nat, childFails: bool)
    requires i < |s.ps| && PartyEnabled(s, i) && StageOf(s.ps[i].pc).Inside? && !s.ps[i].pc.LeaveStation?
    requires PartyOk(s.ps[i], i, s.shm.stationOpen, s.shm.running)
    ensures WaitingSeats(PartyStep(s, i, childFails).ps[i]) == WaitingSeats(s.ps[i])
  {
    if s.ps[i].pc.BoardAnswered? { StaysInsideAnswered(s, i, childFails); }
  }

  /** With the station closed no party starts to wait, and until the shutdown none stops waiting by its own step. */
  lemma NobodyComesOrGoes(s: State, i: nat, childFails: bool)
    requires i < |s.ps| && PartyEnabled(s, i) && !s.shm.stationOpen
    requires PartyOk(s.ps[i], i, s.shm.stationOpen, s.shm.running)
    ensures var w := WaitingSeats(PartyStep(s, i, childFails).ps[i]);
            w == WaitingSeats(s.ps[i]) || (!s.shm.running && w == 0 && WaitingSeats(s.ps[i]) > 0)
  {
    if !StageOf(s.ps[i].pc).Inside? {
      StaysOutside(s, i, childFails);
    } else if !s.ps[i].pc.LeaveStation? {
      StaysInside(s, i, childFails);
    }
  }

  /** What happens to those inside once the station is closed: fewer and fewer wait, and until the shutdown
      each of them still waits or has boarded. */
  predicate KeepsInside(m: Shared, m': Shared) {
    && m'.stationClosed && (m'.running ==> m.running)
    && m'.waiting <= m.waiting && m'.boarded + m'.waiting <= m.boarded + m.waiting
    && (m'.running ==> m'.boarded + m'.waiting == m.boarded + m.waiting)
  }

  lemma KeepsInsideTransitive(m: Shared, m': Shared, m'': Shared)
    requires KeepsInside(m, m') && KeepsInside(m', m'')
    ensures KeepsInside(m, m'')
  {
  }

  lemma ClosedParty(cfg: Config, s: State, i: nat, childFails: bool)
    requires Inv(cfg, s) && i < |s.ps| && PartyEnabled(s, i) && s.shm.stationClosed
    ensures KeepsInside(s.shm, PartyStep(s, i, childFails).shm)
  {
    assert PartyOk(s.ps[i], i, s.shm.stationOpen, s.shm.running);
    PartyFrame(cfg, s, i, childFails);
    NobodyComesOrGoes(s, i, childFails);
  }

  lemma ClosedEnvironment(cfg: Config, s: State, step: Step)
    requires Dimensions(s) && Enabled(s, step) && s.shm.stationClosed
    requires IsQuietEnvironment(step) || step.ClosingSignal? || step.WatchdogRound? || step.ShutDown?
    ensures KeepsInside(s.shm, Apply(cfg, s, step).shm)
  {
    if IsQuietEnvironment(step) {
      EnvironmentFrame(cfg, s, step);
    }
  }

  lemma ClosedStep(cfg: Config, s: State, step: Step)
    requires Inv(cfg, s) && Enabled(s, step) && s.shm.stationClosed
    ensures KeepsInside(s.shm, Apply(cfg, s, step).shm)
  {
    if step.PartyMove? {
      ClosedParty(cfg, s, step.i, step.childFails);
    } else if step.DriverMove? {
      if s.ds[step.g].pc.AtDoor? {
        SeatFrame(cfg, s, step.g, step.due);
      } else {
        DriverFrame(cfg, s, step.g, step.due);
      }
    } else if step.OfficeMove? {
      OfficeFrame(cfg, s, step.k);
    } else {
      ClosedEnvironment(cfg, s, step);
    }
  }

  lemma ClosedAt(cfg: Config, run: seq<State>, k: nat)
    requires IsRun(cfg, run) && k + 1 < |run| && run[k].shm.stationClosed
    ensures KeepsInside(run[k].shm, run[k + 1].shm)
  {
    RunStep(cfg, run, k);
    var step :| Enabled(run[k], step) && run[k + 1] == Apply(cfg, run[k], step);
    ClosedStep(cfg, run[k], step);
  }

  /** Once closed, always closed: from the closing on, throughout every run, those inside are kept. */
  lemma {:induction false} InsideAfterClosing(cfg: Config, run: seq<State>, a: nat, b: nat)
    requires IsRun(cfg, run) && a <= b < |run| && run[a].shm.stationClosed
    ensures KeepsInside(run[a].shm, run[b].shm)
    decreases b - a
  {
    if a < b {
      InsideAfterClosing(cfg, run, a, b - 1);
      ClosedAt(cfg, run, b - 1);
      KeepsInsideTransitive(run[a].shm, run[b - 1].shm, run[b].shm);
    }
  }

  /** A driver leaves its loop only through check_shutdown. */
  lemma StopsOnlyWhenAllowed(cfg: Config, s: State, step: Step, g: nat)
    requires Inv(cfg, s) && Enabled(s, step) && g < |s.ds| && s.ds[g].pc.Check?
    ensures var t := Apply(cfg, s, step); g < |t.ds| && (t.ds[g].pc.FinalCheck? ==> DriverMayStop(s.shm))
  {
    if step.ShutDown? {
      ShutdownFrame(cfg, s);
    } else if !(step.DriverMove? && step.g == g) {
      BusFrame(cfg, s, step, g);
    }
  }

  lemma StopsAt(cfg: Config, run: seq<State>, e: nat, g: nat)
    requires IsRun(cfg, run) && e + 1 < |run| && g < |run[e].ds| && g < |run[e + 1].ds|
    requires run[e].ds[g].pc.Check? && run[e + 1].ds[g].pc.FinalCheck?
    ensures DriverMayStop(run[e].shm)
  {
    RunStep(cfg, run, e);
    var step :| Enabled(run[e], step) && run[e + 1] == Apply(cfg, run[e], step);
    StopsOnlyWhenAllowed(cfg, run[e], step, g);
  }

  lemma NobodyWaits(cfg: Config, s: State)
    requires Inv(cfg, s) && s.shm.waiting == 0
    ensures forall i :: 0 <= i < |s.ps| ==> WaitingSeats(s.ps[i]) == 0
  {
    forall i | 0 <= i < |s.ps| ensures WaitingSeats(s.ps[i]) >= 0 {
      assert PartyOk(s.ps[i], i, s.shm.stationOpen, s.shm.running);
    }
    SumZeroAll(WaitingSeats, s.ps);
  }

  /** No one is abandoned: when a driver stops working with the station closed, nobody waits, then or later. */
  lemma NobodyWaitsAfterDriverStops(cfg: Config, run: seq<State>, e: nat, b: nat, g: nat)
    requires IsRun(cfg, run) && e < b < |run| && run[e].shm.stationClosed
    requires g < |run[e].ds| && g < |run[e + 1].ds| && run[e].ds[g].pc.Check? && run[e + 1].ds[g].pc.FinalCheck?
    ensures run[e].shm.waiting == 0 && run[b].shm.waiting == 0
    ensures forall i :: 0 <= i < |run[b].ps| ==> WaitingSeats(run[b].ps[i]) == 0
  {
    StopsAt(cfg, run, e, g);
    InsideAfterClosing(cfg, run, e, b);
    CountersMeanWhatTheySay(cfg, run, e);
    CountersMeanWhatTheySay(cfg, run, b);
    RunHolds(cfg, run, b);
    NobodyWaits(cfg, run[b]);
  }

  // --- entry attempts ---

  lemma EntryRetryParty(p: Party, i: nat, open: bool, running: bool)
    requires PartyOk(p, i, open, running)
    ensures p.pc.EnterCheck? && p.pc.tries > 0 ==> !open
    ensures p.pc.LeaveEntry? && p.pc.entered ==> p.pc.tries == 0
    ensures p.pc.GivenUp? ==> !open && WaitingSeats(p) == 0 && RodeSeats(p) == 0
    ensures p.pc.Gone? ==> LeftSeats(p) == p.info.seatCount && WaitingSeats(p) == 0 && RodeSeats(p) == 0
    ensures p.pc.LeaveStation? ==> !running
  {
  }

  /** A failed entry attempt is final: the party finds the station closed for good, so it is charged to left_early
      only if it was never counted as waiting, and a successful entry is always the first attempt. */
  lemma EntryRetrySound(cfg: Config, run: seq<State>, k: nat, i: nat)
    requires IsRun(cfg, run) && k < |run| && i < |run[k].ps|
    ensures var p := run[k].ps[i]; var m := run[k].shm;
            && (p.pc.EnterCheck? && p.pc.tries > 0 ==> m.stationClosed)
            && (p.pc.LeaveEntry? && p.pc.entered ==> p.pc.tries == 0 && AfterEntry(p.pc.tries) == BoardCheck)
            && (p.pc.GivenUp? ==> m.stationClosed && WaitingSeats(p) == 0 && RodeSeats(p) == 0)
            && (p.pc.Gone? ==> LeftSeats(p) == p.info.seatCount && WaitingSeats(p) == 0 && RodeSeats(p) == 0)
            && (p.pc.LeaveStation? ==> !m.running)
  {
    RunHolds(cfg, run, k);
    EntryRetryParty(run[k].ps[i], i, run[k].shm.stationOpen, run[k].shm.running);
  }

  // --- ticket sales stop ---

  /** An office that has passed its closing check and not yet issued. */
  function MayIssue(o: OfficePc): int {
    When(o.OfficeReceive? || o.ReleaseSlot? || o.MarkBusy? || o.Serve?, 1)
  }

  lemma SaleWhenClosed(s: State, k: nat)
    requires Dimensions(s) && k < |s.os| && OfficeEnabled(s, k) && s.shm.stationClosed
    ensures MayIssue(OfficeStep(s, k).os[k]) + (if s.os[k].Serve? then 1 else 0) <= MayIssue(s.os[k])
  {
  }

  /** Tickets issued plus tickets that may still be issued never grow. */
  predicate SalesShrink(s: State, t: State) {
    |t.os| == |s.os| && t.shm.issued + Sum(MayIssue, t.os) <= s.shm.issued + Sum(MayIssue, s.os)
  }

  lemma SalesOffice(cfg: Config, s: State, k: nat)
    requires Inv(cfg, s) && k < |s.os| && OfficeEnabled(s, k) && s.shm.stationClosed
    ensures SalesShrink(s, OfficeStep(s, k))
  {
    OfficeFrame(cfg, s, k);
    SaleWhenClosed(s, k);
    SumUpdate(MayIssue, s.os, k, OfficeStep(s, k).os[k]);
  }

  lemma SalesEnvironment(cfg: Config, s: State, step: Step)
    requires Dimensions(s) && Enabled(s, step)
    requires IsQuietEnvironment(step) || step.ClosingSignal? || step.WatchdogRound? || step.ShutDown?
    ensures SalesShrink(s, Apply(cfg, s, step))
  {
    if IsQuietEnvironment(step) {
      EnvironmentFrame(cfg, s, step);
    }
  }

  lemma SalesStep(cfg: Config, s: State, step: Step)
    requires Inv(cfg, s) && Enabled(s, step) && s.shm.stationClosed
    ensures SalesShrink(s, Apply(cfg, s, step))
  {
    if step.PartyMove? {
      PartyFrame(cfg, s, step.i, step.childFails);
    } else if step.DriverMove? {
      if s.ds[step.g].pc.AtDoor? {
        SeatFrame(cfg, s, step.g, step.due);
      } else {
        DriverFrame(cfg, s, step.g, step.due);
      }
    } else if step.OfficeMove? {
      SalesOffice(cfg, s, step.k);
    } else {
      SalesEnvironment(cfg, s, step);
    }
  }

  lemma SalesAt(cfg: Config, run: seq<State>, k: nat)
    requires IsRun(cfg, run) && k + 1 < |run| && run[k].shm.stationClosed
    ensures SalesShrink(run[k], run[k + 1])
  {
    RunStep(cfg, run, k);
    var step :| Enabled(run[k], step) && run[k + 1] == Apply(cfg, run[k], step);
    SalesStep(cfg, run[k], step);
  }

  lemma {:induction false} SalesAfterClosing(cfg: Config, run: seq<State>, a: nat, b: nat)
    requires IsRun(cfg, run) && a <= b < |run| && run[a].shm.stationClosed
    ensures |run[b].os| == |run[a].os|
    ensures run[b].shm.issued + Sum(MayIssue, run[b].os) <= run[a].shm.issued + Sum(MayIssue, run[a].os)
    decreases b - a
  {
    if a < b {
      InsideAfterClosing(cfg, run, a, b - 1);
      SalesAfterClosing(cfg, run, a, b - 1);
      SalesAt(cfg, run, b - 1);
    }
  }

  /** After the closing at most one more ticket per office is issued, however long the run goes on. */
  lemma AtMostOneTicketPerOffice(cfg: Config, run: seq<State>, a: nat, b: nat)
    requires IsRun(cfg, run) && a <= b < |run| && run[a].shm.stationClosed
    ensures run[b].shm.issued <= run[a].shm.issued + |run[a].os|
  {
    SalesAfterClosing(cfg, run, a, b);
    SumAtMost(MayIssue, run[a].os);
    SumNonNegative(MayIssue, run[b].os);
  }
}
