/** The binary semaphores with taking and giving back as separate operations. Each function of the source that takes
    one is the sequence of its blocking operations; the semaphores know of no order among themselves. */
module LockOrder {
  import opened Sequences
  import opened Domain

  datatype Lock = Mutex | StationEntry | PassengerDoor | BikeDoor | Window(office: nat)

  /** Wait: in msgrcv, or for a slot in a queue, for as long as it takes. Send: a message put on a queue. */
  datatype Op = Take(lock: Lock) | Give(lock: Lock) | Wait | Send

  /** What a process is executing. Where the source branches, each outcome is a role of its own. */
  datatype Role =
    | Region                     // one region under SEM_SHM_MUTEX and nothing else
    | Ask                        // purchase_ticket, and attempt_boarding with an active bus
    | Enter                      // enter_station, found open
    | Admit(bike: bool)          // a driver's request, approved
    | Refuse                     // a driver's request, refused
    | Sell(office: nat)          // an office's request
    | Drain                      // one request of drain_queue_on_close

  function Door(bike: bool): Lock { if bike then BikeDoor else PassengerDoor }

  function Script(role: Role): seq<Op> {
    match role
    case Region => [Take(Mutex), Give(Mutex)]
    case Ask => [Take(Mutex), Give(Mutex), Wait, Send, Wait]
    case Enter => [Take(Mutex), Give(Mutex), Take(StationEntry), Take(Mutex), Give(Mutex), Give(StationEntry)]
    case Admit(bike) =>
      [Wait, Take(Mutex), Give(Mutex), Take(Door(bike)), Take(Mutex), Give(Mutex), Give(Door(bike)), Send]
    case Refuse => [Wait, Take(Mutex), Give(Mutex), Send]
    case Sell(office) =>
      [Wait, Take(Mutex), Give(Mutex), Take(Window(office)), Take(Mutex), Give(Mutex), Send, Give(Window(office)),
       Take(Mutex), Give(Mutex)]
    case Drain => [Take(Mutex), Give(Mutex), Send]
  }

  /** crashed: stopped for good where it stands. */
  datatype Process = Process(role: Role, at: nat, crashed: bool)

  /** woken: the closing has set SEM_STATION_ENTRY to a large value. */
  datatype State = State(sems: map<Lock, int>, procs: seq<Process>, woken: bool)

  datatype Step =
    | Start(p: nat, role: Role)
    | Advance(p: nat)
    | Crash(p: nat)              // outside the regions
    | Wake                       // sem_setval(SEM_STATION_ENTRY, 1000)

  // --- what a process holds ---

  function Change(op: Op, lock: Lock): int {
    if op == Take(lock) then 1 else if op == Give(lock) then -1 else 0
  }

  /** Taken and not given back by the first `at` operations. */
  function HeldAfter(ops: seq<Op>, at: nat, lock: Lock): int
    requires at <= |ops|
  {
    if at == 0 then 0 else HeldAfter(ops, at - 1, lock) + Change(ops[at - 1], lock)
  }

  function Held(lock: Lock): Process -> int {
    (p: Process) => if p.at <= |Script(p.role)| then HeldAfter(Script(p.role), p.at, lock) else 0
  }

  // --- steps ---

  predicate Idle(p: Process) { p.at == |Script(p.role)| }

  /** The next operation of a process that is not idle. */
  predicate NextIs(p: Process, op: Op) { p.at < |Script(p.role)| && Script(p.role)[p.at] == op }

  predicate Usable(sems: map<Lock, int>, role: Role) {
    role.Sell? ==> Window(role.office) in sems
  }

  predicate CanDo(sems: map<Lock, int>, op: Op) {
    match op
    case Take(lock) => lock in sems && sems[lock] > 0
    case Give(lock) => lock in sems
    case _ => true
  }

  predicate Enabled(s: State, step: Step) {
    match step
    case Start(p, role) => p < |s.procs| && !s.procs[p].crashed && Idle(s.procs[p]) && Usable(s.sems, role)
    case Advance(p) =>
      && p < |s.procs| && !s.procs[p].crashed && s.procs[p].at < |Script(s.procs[p].role)|
      && CanDo(s.sems, Script(s.procs[p].role)[s.procs[p].at])
    case Crash(p) => p < |s.procs| && !s.procs[p].crashed && Held(Mutex)(s.procs[p]) == 0
    case Wake => StationEntry in s.sems
  }

  function Perform(sems: map<Lock, int>, op: Op): map<Lock, int>
    requires CanDo(sems, op)
  {
    match op
    case Take(lock) => sems[lock := sems[lock] - 1]
    case Give(lock) => sems[lock := sems[lock] + 1]
    case _ => sems
  }

  function Apply(s: State, step: Step): State
    requires Enabled(s, step)
  {
    match step
    case Start(p, role) => s.(procs := s.procs[p := Process(role, 0, false)])
    case Advance(p) =>
      var q := s.procs[p];
      State(Perform(s.sems, Script(q.role)[q.at]), s.procs[p := q.(at := q.at + 1)], s.woken)
    case Crash(p) => s.(procs := s.procs[p := s.procs[p].(crashed := true)])
    case Wake => s.(sems := s.sems[StationEntry := WAKE_ALL], woken := true)
  }

  predicate Init(s: State) {
    && Mutex in s.sems && StationEntry in s.sems && PassengerDoor in s.sems && BikeDoor in s.sems
    && (forall lock :: lock in s.sems ==> s.sems[lock] == 1)
    && !s.woken
    && (forall p :: 0 <= p < |s.procs| ==> s.procs[p] == Process(Region, 2, false))
  }

  ghost predicate Next(s: State, t: State) {
    exists step :: Enabled(s, step) && t == Apply(s, step)
  }

  ghost predicate StepAt(run: seq<State>, k: nat)
    requires k + 1 < |run|
  {
    Next(run[k], run[k + 1])
  }

  ghost predicate IsRun(run: seq<State>) {
    |run| > 0 && Init(run[0]) && forall k: nat :: k + 1 < |run| ==> StepAt(run, k)
  }

  // --- what the sequences amount to, operation by operation ---

  /** When each lock is held, read off the sequences. */
  predicate Holding(role: Role, at: nat, lock: Lock) {
    match lock
    case Mutex =>
      (match role
       case Region => at == 1
       case Ask => at == 1
       case Enter => at == 1 || at == 4
       case Admit(_) => at == 2 || at == 5
       case Refuse => at == 2
       case Sell(_) => at == 2 || at == 5 || at == 9
       case Drain => at == 1)
    case StationEntry => role.Enter? && 3 <= at <= 5
    case PassengerDoor => role == Admit(false) && 4 <= at <= 6
    case BikeDoor => role == Admit(true) && 4 <= at <= 6
    case Window(office) => role == Sell(office) && 4 <= at <= 7
  }

  lemma {:induction false} HeldIs(role: Role, at: nat, lock: Lock)
    requires at <= |Script(role)|
    ensures HeldAfter(Script(role), at, lock) == (if Holding(role, at, lock) then 1 else 0)
  {
    if at > 0 {
      HeldIs(role, at - 1, lock);
      assert Script(role)[at - 1] in Script(role);
    }
  }

  lemma HeldOneOrNone(lock: Lock)
    ensures forall p: Process :: 0 <= Held(lock)(p) <= 1
  {
    forall p: Process ensures 0 <= Held(lock)(p) <= 1 {
      if p.at <= |Script(p.role)| { HeldIs(p.role, p.at, lock); }
    }
  }

  /** SEM_SHM_MUTEX is innermost: who holds it gives it back next. */
  lemma MutexGivenNext(p: Process)
    requires Held(Mutex)(p) > 0
    ensures NextIs(p, Give(Mutex))
  {
    HeldIs(p.role, p.at, Mutex);
  }

  /** A lock is taken by a process that holds another only if it is SEM_SHM_MUTEX. */
  lemma OnlyMutexNested(p: Process, wanted: Lock, held: Lock)
    requires NextIs(p, Take(wanted)) && Held(held)(p) > 0
    ensures wanted == Mutex && held != Mutex
  {
    HeldIs(p.role, p.at, held);
  }

  /** Nobody waits for a message or for a slot with a lock in hand. */
  lemma NothingHeldWaiting(p: Process, lock: Lock)
    requires NextIs(p, Wait)
    ensures Held(lock)(p) == 0
  {
    HeldIs(p.role, p.at, lock);
  }

  /** Everything taken is given back in the end. */
  lemma NothingHeldIdle(p: Process, lock: Lock)
    requires Idle(p)
    ensures Held(lock)(p) == 0
  {
    HeldIs(p.role, p.at, lock);
  }

  // --- the invariant ---

  /** Value plus holders is one; after the wake-up the entry semaphore only has more room. */
  predicate Accounted(s: State, lock: Lock)
    requires lock in s.sems
  {
    var total := s.sems[lock] + Sum(Held(lock), s.procs);
    s.sems[lock] >= 0 && (if lock == StationEntry && s.woken then total >= 1 else total == 1)
  }

  predicate Sane(sems: map<Lock, int>, p: Process) {
    p.at <= |Script(p.role)| && Usable(sems, p.role) && (p.crashed ==> Held(Mutex)(p) == 0)
  }

  ghost predicate Inv(s: State) {
    && Mutex in s.sems && StationEntry in s.sems && PassengerDoor in s.sems && BikeDoor in s.sems
    && (forall lock :: lock in s.sems ==> Accounted(s, lock))
    && (forall p :: 0 <= p < |s.procs| ==> Sane(s.sems, s.procs[p]))
  }

  lemma InitHolds(s: State)
    requires Init(s)
    ensures Inv(s)
  {
    forall lock | lock in s.sems ensures Accounted(s, lock) {
      forall p | 0 <= p < |s.procs| ensures Held(lock)(s.procs[p]) == 0 { NothingHeldIdle(s.procs[p], lock); }
      SumZero(Held(lock), s.procs);
    }
    forall p | 0 <= p < |s.procs| ensures Sane(s.sems, s.procs[p]) {
      NothingHeldIdle(s.procs[p], Mutex);
    }
  }

  /** One process changes, and each semaphore makes up for what it then holds more or less. */
  lemma ProcessMoves(s: State, t: State, p: nat, q: Process)
    requires Inv(s) && p < |s.procs| && t.procs == s.procs[p := q] && t.woken == s.woken
    requires t.sems.Keys == s.sems.Keys && Sane(t.sems, q)
    requires forall lock :: lock in s.sems ==>
               t.sems[lock] == s.sems[lock] + Held(lock)(s.procs[p]) - Held(lock)(q) && t.sems[lock] >= 0
    ensures Inv(t)
  {
    forall lock | lock in t.sems ensures Accounted(t, lock) {
      assert Accounted(s, lock);
      SumUpdate(Held(lock), s.procs, p, q);
    }
    forall r | 0 <= r < |t.procs| ensures Sane(t.sems, t.procs[r]) {
      assert r != p ==> Sane(s.sems, s.procs[r]);
    }
  }

  lemma WakeKeeps(s: State)
    requires Inv(s)
    ensures Inv(s.(sems := s.sems[StationEntry := WAKE_ALL], woken := true))
  {
    var t := s.(sems := s.sems[StationEntry := WAKE_ALL], woken := true);
    forall lock | lock in t.sems ensures Accounted(t, lock) {
      assert Accounted(s, lock);
      HeldOneOrNone(lock);
      SumNonNegative(Held(lock), s.procs);
    }
    forall r | 0 <= r < |t.procs| ensures Sane(t.sems, t.procs[r]) {
      assert Sane(s.sems, s.procs[r]);
    }
  }

  lemma StartKeeps(s: State, p: nat, role: Role)
    requires Inv(s) && Enabled(s, Start(p, role))
    ensures Inv(Apply(s, Start(p, role)))
  {
    forall lock ensures Held(lock)(s.procs[p]) == 0 { NothingHeldIdle(s.procs[p], lock); }
    assert forall lock :: lock in s.sems ==> Accounted(s, lock);
    ProcessMoves(s, Apply(s, Start(p, role)), p, Process(role, 0, false));
  }

  /** An operation takes from a semaphore what it adds to its process's hands. */
  lemma OperationMoves(sems: map<Lock, int>, p: Process, op: Op, lock: Lock)
    requires NextIs(p, op) && CanDo(sems, op) && lock in sems && sems[lock] >= 0
    ensures lock in Perform(sems, op) && Perform(sems, op)[lock] >= 0
    ensures Perform(sems, op)[lock] == sems[lock] + Held(lock)(p) - Held(lock)(p.(at := p.at + 1))
  {
  }

  lemma AdvanceKeeps(s: State, p: nat)
    requires Inv(s) && Enabled(s, Advance(p))
    ensures Inv(Apply(s, Advance(p)))
  {
    var q := s.procs[p];
    var op := Script(q.role)[q.at];
    var t := Apply(s, Advance(p));
    assert Sane(s.sems, q);
    forall lock | lock in s.sems
      ensures t.sems[lock] == s.sems[lock] + Held(lock)(q) - Held(lock)(q.(at := q.at + 1)) && t.sems[lock] >= 0
    {
      assert Accounted(s, lock);
      OperationMoves(s.sems, q, op, lock);
    }
    ProcessMoves(s, t, p, q.(at := q.at + 1));
  }

  lemma StepKeeps(s: State, step: Step)
    requires Inv(s) && Enabled(s, step)
    ensures Inv(Apply(s, step))
  {
    match step
    case Start(p, role) => StartKeeps(s, p, role);
    case Advance(p) => AdvanceKeeps(s, p);
    case Crash(p) =>
      assert Sane(s.sems, s.procs[p]);
      assert forall lock :: lock in s.sems ==> Accounted(s, lock);
      ProcessMoves(s, Apply(s, step), p, s.procs[p].(crashed := true));
    case Wake => WakeKeeps(s);
  }

  lemma {:induction false} RunHolds(run: seq<State>, k: nat)
    requires IsRun(run) && k < |run|
    ensures Inv(run[k])
  {
    if k == 0 {
      InitHolds(run[0]);
    } else {
      RunHolds(run, k - 1);
      assert StepAt(run, k - 1);
      var step :| Enabled(run[k - 1], step) && run[k] == Apply(run[k - 1], step);
      StepKeeps(run[k - 1], step);
    }
  }

  // --- what follows in every run ---

  /** Mutual exclusion: at most one process holds SEM_SHM_MUTEX, it is alive, and it gives it back next. */
  lemma MutexExclusive(run: seq<State>, k: nat, p: nat)
    requires IsRun(run) && k < |run| && p < |run[k].procs| && Held(Mutex)(run[k].procs[p]) > 0
    ensures NextIs(run[k].procs[p], Give(Mutex)) && Enabled(run[k], Advance(p)) && run[k].sems[Mutex] == 0
    ensures forall q :: 0 <= q < |run[k].procs| && q != p ==> Held(Mutex)(run[k].procs[q]) == 0
  {
    var s := run[k];
    RunHolds(run, k);
    assert Sane(s.sems, s.procs[p]) && Accounted(s, Mutex);
    MutexGivenNext(s.procs[p]);
    HeldOneOrNone(Mutex);
    SumAtLeast(Held(Mutex), s.procs, p);
    forall q | 0 <= q < |s.procs| && q != p ensures Held(Mutex)(s.procs[q]) == 0 {
      if Held(Mutex)(s.procs[q]) > 0 {
        if p < q { SumTwoOnes(Held(Mutex), s.procs, p, q); } else { SumTwoOnes(Held(Mutex), s.procs, q, p); }
      }
    }
  }

  /** p, alive, needs a semaphore that is down and that q holds. */
  predicate WaitsFor(s: State, p: nat, q: nat, lock: Lock) {
    && p < |s.procs| && q < |s.procs| && !s.procs[p].crashed
    && NextIs(s.procs[p], Take(lock)) && !CanDo(s.sems, Take(lock)) && Held(lock)(s.procs[q]) > 0
  }

  /** A chain of waits has at most two links, the second of them for SEM_SHM_MUTEX. */
  lemma WaitChainsAreShort(s: State, p: nat, q: nat, r: nat, first: Lock, second: Lock)
    requires WaitsFor(s, p, q, first) && WaitsFor(s, q, r, second)
    ensures second == Mutex && forall o: nat, third: Lock :: !WaitsFor(s, r, o, third)
  {
    OnlyMutexNested(s.procs[q], second, first);
    MutexGivenNext(s.procs[r]);
  }

  predicate WaitsForNext(s: State, circle: seq<nat>, locks: seq<Lock>, i: nat)
    requires i < |circle| == |locks|
  {
    WaitsFor(s, circle[i], circle[(i + 1) % |circle|], locks[i])
  }

  /** There is never a circle of processes each waiting for a lock that the next one holds. */
  lemma NoWaitCycle(s: State, circle: seq<nat>, locks: seq<Lock>)
    requires |circle| == |locks| > 0
    ensures exists i: nat :: i < |circle| && !WaitsForNext(s, circle, locks, i)
  {
    var n := |circle|;
    var j, k := 1 % n, (1 % n + 1) % n;
    if WaitsForNext(s, circle, locks, 0) && WaitsForNext(s, circle, locks, j) {
      WaitChainsAreShort(s, circle[0], circle[j], circle[k], locks[0], locks[j]);
      assert !WaitsForNext(s, circle, locks, k);
    }
  }

  /** A step that depends on no message and no free slot. */
  predicate CanGoOn(s: State, p: nat) {
    Enabled(s, Advance(p)) && !NextIs(s.procs[p], Wait)
  }

  lemma MutexHolderGoesOn(run: seq<State>, k: nat)
    requires IsRun(run) && k < |run| && Mutex in run[k].sems && run[k].sems[Mutex] <= 0
    ensures exists q: nat :: CanGoOn(run[k], q)
  {
    var s := run[k];
    RunHolds(run, k);
    assert Accounted(s, Mutex);
    HeldOneOrNone(Mutex);
    var q := SumSomeOne(Held(Mutex), s.procs);
    MutexExclusive(run, k, q);
    assert CanGoOn(s, q);
  }

  /** No deadlock: whenever a live process is stopped at a lock, somebody can go on without waiting for a message,
      unless that lock is held by a process that crashed. */
  lemma SomebodyMoves(run: seq<State>, k: nat, p: nat, lock: Lock)
    requires IsRun(run) && k < |run| && p < |run[k].procs| && !run[k].procs[p].crashed
    requires NextIs(run[k].procs[p], Take(lock))
    ensures (exists q: nat :: CanGoOn(run[k], q))
         || (lock != Mutex && exists q: nat :: WaitsFor(run[k], p, q, lock) && run[k].procs[q].crashed)
  {
    var s := run[k];
    RunHolds(run, k);
    assert Sane(s.sems, s.procs[p]);
    TakenLockExists(s, p, lock);
    if s.sems[lock] > 0 {
      assert CanGoOn(s, p);
    } else if lock == Mutex {
      MutexHolderGoesOn(run, k);
    } else {
      assert Accounted(s, lock);
      HeldOneOrNone(lock);
      var q := SumSomeOne(Held(lock), s.procs);
      assert WaitsFor(s, p, q, lock);
      if !s.procs[q].crashed {
        HolderGoesOn(run, k, q, lock);
      }
    }
  }

  lemma TakenLockExists(s: State, p: nat, lock: Lock)
    requires Inv(s) && p < |s.procs| && Sane(s.sems, s.procs[p])
    requires NextIs(s.procs[p], Take(lock)) || NextIs(s.procs[p], Give(lock))
    ensures lock in s.sems
  {
    assert lock.Window? ==> s.procs[p].role == Sell(lock.office);
  }

  lemma HolderGoesOn(run: seq<State>, k: nat, q: nat, lock: Lock)
    requires IsRun(run) && k < |run| && q < |run[k].procs| && !run[k].procs[q].crashed
    requires Held(lock)(run[k].procs[q]) > 0
    ensures exists r: nat :: CanGoOn(run[k], r)
  {
    var s := run[k];
    var holder := s.procs[q];
    RunHolds(run, k);
    assert Sane(s.sems, holder);
    if Idle(holder) {
      NothingHeldIdle(holder, lock);
    } else {
      var op := Script(holder.role)[holder.at];
      assert NextIs(holder, op);
      if op == Wait {
        NothingHeldWaiting(holder, lock);
      } else {
        if op.Take? || op.Give? { TakenLockExists(s, q, op.lock); }
        if CanDo(s.sems, op) {
          assert CanGoOn(s, q);
        } else {
          OnlyMutexNested(holder, op.lock, lock);
          MutexHolderGoesOn(run, k);
        }
      }
    }
  }
}
