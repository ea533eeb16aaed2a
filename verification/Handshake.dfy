/** The adult and the child thread inside one passenger process: the condition-variable handshake. */
module Handshake {

  /** boards: the adult's request was approved. A boarding adult first raises the flag, then joins the child. */
  datatype AdultPc =
    | BoardLock | BoardSet | BoardSignal | BoardUnlock   // attempt_boarding
    | JoinLock | JoinSignal | JoinUnlock | Join          // wait_for_child_thread
    | Finished

  datatype ChildPc =
    | Starting            // before pthread_mutex_lock
    | Testing             // at the loop condition, holding the mutex
    | Waiting             // in pthread_cond_wait, mutex released
    | Woken               // must reacquire the mutex
    | Unlocking | Checking | Ended

  datatype Owner = Nobody | Adult | Child

  datatype State = State(adult: AdultPc, child: ChildPc, mutex: Owner, adultBoarded: bool, childBoarded: bool)

  function Begin(boards: bool): State {
    State(if boards then BoardLock else JoinLock, Starting, Nobody, false, false)
  }

  datatype Step = AdultStep | ChildStep | SpuriousWakeup

  predicate Enabled(s: State, step: Step) {
    match step
    case AdultStep =>
      (match s.adult
       case BoardLock => s.mutex == Nobody
       case JoinLock => s.mutex == Nobody
       case Join => s.child == Ended
       case Finished => false
       case _ => true)
    case ChildStep =>
      (match s.child
       case Starting => s.mutex == Nobody
       case Woken => s.mutex == Nobody
       case Waiting => false
       case Ended => false
       case _ => true)
    case SpuriousWakeup => s.child == Waiting
  }

  function Signal(child: ChildPc): ChildPc {
    if child == Waiting then Woken else child
  }

  function Apply(s: State, step: Step): State
    requires Enabled(s, step)
  {
    match step
    case AdultStep =>
      (match s.adult
       case BoardLock => s.(adult := BoardSet, mutex := Adult)
       case BoardSet => s.(adult := BoardSignal, adultBoarded := true)
       case BoardSignal => s.(adult := BoardUnlock, child := Signal(s.child))
       case BoardUnlock => s.(adult := JoinLock, mutex := Nobody)
       case JoinLock => s.(adult := JoinSignal, mutex := Adult)
       case JoinSignal => s.(adult := JoinUnlock, child := Signal(s.child))
       case JoinUnlock => s.(adult := Join, mutex := Nobody)
       case Join => s.(adult := Finished)
       case Finished => s)
    case ChildStep =>
      (match s.child
       case Starting => s.(child := Testing, mutex := Child)
       case Testing => if !s.adultBoarded then s.(child := Waiting, mutex := Nobody) else s.(child := Unlocking)
       case Woken => s.(child := Testing, mutex := Child)
       case Unlocking => s.(child := Checking, mutex := Nobody)
       case Checking => s.(child := Ended, childBoarded := s.adultBoarded)
       case _ => s)
    case SpuriousWakeup => s.(child := Woken)
  }

  ghost predicate Next(s: State, t: State) {
    exists step :: Enabled(s, step) && t == Apply(s, step)
  }

  ghost predicate StepAt(run: seq<State>, k: nat)
    requires k + 1 < |run|
  {
    Next(run[k], run[k + 1])
  }

  ghost predicate IsRun(boards: bool, run: seq<State>) {
    && |run| > 0 && run[0] == Begin(boards)
    && forall k: nat :: k + 1 < |run| ==> StepAt(run, k)
  }

  // --- the invariant ---

  predicate AdultHolds(a: AdultPc) {
    a == BoardSet || a == BoardSignal || a == BoardUnlock || a == JoinSignal || a == JoinUnlock
  }

  predicate ChildHolds(c: ChildPc) { c == Testing || c == Unlocking }

  /** The adult has raised the flag, and has signalled it. */
  predicate Raised(a: AdultPc) { !(a == BoardLock || a == BoardSet) }
  predicate Signalled(a: AdultPc) { Raised(a) && a != BoardSignal }

  predicate Inv(boards: bool, s: State) {
    && s.mutex == (if AdultHolds(s.adult) then Adult else if ChildHolds(s.child) then Child else Nobody)
    && !(AdultHolds(s.adult) && ChildHolds(s.child))
    && (boards ==> (s.adultBoarded <==> Raised(s.adult)))
    && (!boards ==> !s.adultBoarded && Signalled(s.adult))
    && (boards && s.child == Waiting ==> !Signalled(s.adult))      // no lost wakeup
    && (s.child == Unlocking || s.child == Checking || s.child == Ended ==> s.adultBoarded)
    && (s.childBoarded <==> s.child == Ended)
    && (s.adult == Finished ==> s.child == Ended)
  }

  lemma StepKeeps(boards: bool, s: State, step: Step)
    requires Inv(boards, s) && Enabled(s, step)
    ensures Inv(boards, Apply(s, step))
  {
  }

  lemma {:induction false} RunHolds(boards: bool, run: seq<State>, k: nat)
    requires IsRun(boards, run) && k < |run|
    ensures Inv(boards, run[k])
  {
    if k > 0 {
      RunHolds(boards, run, k - 1);
      assert StepAt(run, k - 1);
      var step :| Enabled(run[k - 1], step) && run[k] == Apply(run[k - 1], step);
      StepKeeps(boards, run[k - 1], step);
    }
  }

  /** The child never boards without its adult. */
  lemma ChildOnlyWithAdult(boards: bool, run: seq<State>, k: nat)
    requires IsRun(boards, run) && k < |run|
    ensures run[k].childBoarded ==> run[k].adultBoarded && boards
  {
    RunHolds(boards, run, k);
  }

  // --- termination, when the adult boards ---

  function AdultRank(a: AdultPc): nat {
    match a
    case BoardLock => 8 case BoardSet => 7 case BoardSignal => 6 case BoardUnlock => 5
    case JoinLock => 4 case JoinSignal => 3 case JoinUnlock => 2 case Join => 1 case Finished => 0
  }

  function ChildRank(c: ChildPc): nat {
    match c
    case Starting => 6 case Woken => 5 case Testing => 4 case Waiting => 3
    case Unlocking => 2 case Checking => 1 case Ended => 0
  }

  function Measure(s: State): nat { 7 * AdultRank(s.adult) + ChildRank(s.child) }

  /** Every step but a spurious wakeup brings the two threads closer to their end. */
  lemma Progress(s: State, step: Step)
    requires Enabled(s, step) && step != SpuriousWakeup
    ensures Measure(Apply(s, step)) < Measure(s)
  {
  }

  /** With a boarding adult there is always such a step until both have ended: no deadlock, no lost wakeup. */
  lemma NeverStuck(s: State)
    requires Inv(true, s)
    ensures (Enabled(s, AdultStep) || Enabled(s, ChildStep)) <==> s.adult != Finished
    ensures s.adult == Finished ==> s.childBoarded && s.adultBoarded
  {
  }

  function SpuriousIn(run: seq<State>): nat {
    if |run| < 2 then 0
    else SpuriousIn(run[..|run| - 1]) + (if Measure(run[|run| - 1]) < Measure(run[|run| - 2]) then 0 else 1)
  }

  /** So a run is longer than 62 steps only by what spurious wakeups add: each costs at most two more steps,
      and itself. Hence if the adult boards and spurious wakeups are finitely many, both threads end. */
  lemma {:induction false} RunsAreShort(boards: bool, run: seq<State>)
    requires IsRun(boards, run)
    ensures |run| - 1 + Measure(run[|run| - 1]) <= 62 + 3 * SpuriousIn(run)
  {
    if |run| > 1 {
      var last := |run| - 1;
      var prev := run[..last];
      assert StepAt(run, last - 1);
      forall k: nat | k + 1 < |prev| ensures StepAt(prev, k) {
        assert StepAt(run, k);
      }
      RunsAreShort(boards, prev);
      var step :| Enabled(run[last - 1], step) && run[last] == Apply(run[last - 1], step);
      if step != SpuriousWakeup {
        Progress(run[last - 1], step);
      }
    }
  }

  // --- when the adult does not board ---

  /** The child then never ends and the join never returns: the process hangs in wait_for_child_thread. */
  lemma JoinNeverReturns(run: seq<State>, k: nat)
    requires IsRun(false, run) && k < |run|
    ensures run[k].adult != Finished && run[k].child != Ended && !run[k].childBoarded
  {
    RunHolds(false, run, k);
  }

  /** A run of a boarding adult in which both threads end. */
  lemma BoardingRun() returns (run: seq<State>)
    ensures IsRun(true, run) && run[|run| - 1].adult == Finished && run[|run| - 1].childBoarded
  {
    run := [Begin(true)];
    while run[|run| - 1].adult != Finished
      invariant IsRun(true, run)
      decreases Measure(run[|run| - 1])
    {
      var s := run[|run| - 1];
      RunHolds(true, run, |run| - 1);
      NeverStuck(s);
      var step := if Enabled(s, AdultStep) then AdultStep else ChildStep;
      Progress(s, step);
      var longer := run + [Apply(s, step)];
      forall k: nat | k + 1 < |longer| ensures StepAt(longer, k) {
        if k + 1 < |run| {
          assert StepAt(run, k);
        } else {
          assert Enabled(s, step) && longer[k + 1] == Apply(longer[k], step);
        }
      }
      run := longer;
    }
    RunHolds(true, run, |run| - 1);
  }

  /** The join returns in some run exactly when the adult boards. */
  lemma JoinReturnsIff(boards: bool)
    ensures (exists run: seq<State> :: IsRun(boards, run) && run[|run| - 1].adult == Finished) <==> boards
  {
    if boards {
      var run := BoardingRun();
    } else {
      forall run: seq<State> | IsRun(false, run) ensures run[|run| - 1].adult != Finished {
        JoinNeverReturns(run, |run| - 1);
      }
    }
  }
}
