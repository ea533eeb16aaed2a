/** main's growable table of passenger process ids, with removal by swapping in the last entry. */
module PidTable {

  const INITIAL_PASSENGER_CAPACITY := 1024

  /** The last entry takes the place of entry i. */
  function SwapRemoved(s: seq<int>, i: nat): seq<int>
    requires i < |s|
  {
    var last := |s| - 1;
    if i == last then s[..last] else s[..last][i := s[last]]
  }

  /** Exactly the entry at i is gone. */
  lemma SwapRemovesOne(s: seq<int>, i: nat)
    requires i < |s|
    ensures multiset(SwapRemoved(s, i)) == multiset(s) - multiset{s[i]}
    ensures |SwapRemoved(s, i)| == |s| - 1
  {
    var last := |s| - 1;
    assert s == s[..last] + [s[last]];
    if i < last {
      assert multiset(s[..last][i := s[last]]) == multiset(s[..last]) - multiset{s[i]} + multiset{s[last]};
    }
  }

  /** The least index at which pid stands in s, or |s|. */
  function IndexOf(s: seq<int>, pid: int, from: nat := 0): (i: nat)
    requires from <= |s|
    ensures from <= i <= |s| && (i < |s| ==> s[i] == pid) && forall j :: from <= j < i ==> s[j] != pid
    decreases |s| - from
  {
    if from == |s| || s[from] == pid then from else IndexOf(s, pid, from + 1)
  }

  /** s without one occurrence of pid, if it has any. */
  function WithoutFirst(s: seq<int>, pid: int): (r: seq<int>)
    ensures multiset(r) == multiset(s) - multiset{pid}
    ensures pid !in s ==> r == s
  {
    var i := IndexOf(s, pid);
    if i < |s| then
      SwapRemovesOne(s, i);
      SwapRemoved(s, i)
    else s
  }

  /** s with its first occurrence of pid set to zero. */
  function WithFirstCleared(s: seq<int>, pid: int): (r: seq<int>)
    ensures pid !in s ==> r == s
    ensures pid in s ==> exists i :: 0 <= i < |s| && s[i] == pid && pid !in s[..i] && r == s[i := 0]
  {
    var i := IndexOf(s, pid);
    if i < |s| then s[i := 0] else s
  }

  // --- whole histories ---

  datatype Event = Spawned(pid: int) | Reaped(pid: int)

  /** The passengers that have been spawned and not yet reaped. */
  function Present(events: seq<Event>): set<int> {
    if events == [] then {}
    else
      var before := Present(events[..|events| - 1]);
      match events[|events| - 1]
      case Spawned(pid) => before + {pid}
      case Reaped(pid) => before - {pid}
  }

  /** No pid is spawned while a process with that pid is still present. */
  predicate Sensible(events: seq<Event>) {
    forall k :: 0 <= k < |events| ==> SensibleAt(events, k)
  }

  predicate SensibleAt(events: seq<Event>, k: nat)
    requires k < |events|
  {
    events[k].Spawned? ==> events[k].pid !in Present(events[..k])
  }

  function TableStep(table: seq<int>, event: Event): seq<int> {
    match event
    case Spawned(pid) => table + [pid]
    case Reaped(pid) => WithoutFirst(table, pid)
  }

  /** The table after a history in which every tracking succeeds. */
  function TableAfter(events: seq<Event>): seq<int> {
    if events == [] then [] else TableStep(TableAfter(events[..|events| - 1]), events[|events| - 1])
  }

  lemma SensiblePrefix(events: seq<Event>)
    requires Sensible(events) && events != []
    ensures Sensible(events[..|events| - 1]) && SensibleAt(events, |events| - 1)
  {
    var prefix := events[..|events| - 1];
    forall k | 0 <= k < |prefix| ensures SensibleAt(prefix, k) {
      assert SensibleAt(events, k) && prefix[..k] == events[..k];
    }
  }

  /** After any sensible history the table holds each present passenger exactly once, and nobody else. */
  lemma {:induction false} TableMatchesPresent(events: seq<Event>)
    requires Sensible(events)
    ensures multiset(TableAfter(events)) == multiset(Present(events))
    ensures |TableAfter(events)| == |Present(events)|
  {
    if events != [] {
      SensiblePrefix(events);
      TableMatchesPresent(events[..|events| - 1]);
    }
    assert |TableAfter(events)| == |multiset(TableAfter(events))|;
  }

  class Tracker {
    var pids: array?<int>
    var count: nat
    var capacity: nat
    var dispatcherPid: int
    const officePids: array<int>
    const driverPids: array<int>

    ghost predicate Valid()
      reads this, pids
    {
      && officePids != driverPids && pids != officePids && pids != driverPids
      && (pids == null ==> count == 0)
      && (pids != null ==> pids.Length == capacity && count <= capacity && capacity > 0)
    }

    /** The tracked passengers: the used prefix of the table. */
    ghost function Contents(): seq<int>
      reads this, pids
      requires Valid()
    {
      if pids == null then [] else pids[..count]
    }

    /** The pid belongs to the dispatcher, an office or a driver. */
    predicate IsStaff(pid: int)
      reads this, officePids, driverPids
    {
      pid == dispatcherPid || pid in officePids[..] || pid in driverPids[..]
    }

    constructor (offices: nat, drivers: nat)
      ensures Valid() && Contents() == [] && officePids.Length == offices && driverPids.Length == drivers
      ensures fresh(officePids) && fresh(driverPids) && pids == null && dispatcherPid == 0
    {
      pids, count, capacity, dispatcherPid := null, 0, 0, 0;
      officePids := new int[offices](_ => 0);
      driverPids := new int[drivers](_ => 0);
    }

    /** track_passenger_pid; `memory` says whether malloc or realloc succeeds. A failure leaves the table as it was. */
    method TrackPassengerPid(pid: int, memory: bool) returns (ok: bool)
      requires Valid()
      modifies this`pids, this`count, this`capacity, pids
      ensures Valid() && (pids == old(pids) || fresh(pids))
      ensures Contents() == if ok then old(Contents()) + [pid] else old(Contents())
      ensures !ok ==> !memory && (old(pids) == null || old(count) == old(capacity))
      ensures old(pids) != null ==>
                capacity == (if ok && old(count) == old(capacity) then 2 * old(capacity) else old(capacity))
    {
      if pids == null {
        capacity := INITIAL_PASSENGER_CAPACITY;
        if !memory {
          return false;
        }
        pids := new int[INITIAL_PASSENGER_CAPACITY];
      }
      if count >= capacity {
        var newCapacity := capacity * 2;
        if !memory {
          return false;
        }
        var smaller: array<int> := pids;
        var larger := new int[newCapacity];
        for i := 0 to count
          invariant count == old(count) == smaller.Length && capacity == old(capacity)
          invariant smaller[..] == old(Contents()) && larger[..i] == smaller[..i]
        {
          larger[i] := smaller[i];
        }
        pids := larger;
        capacity := newCapacity;
      }
      pids[count] := pid;
      count := count + 1;
      ok := true;
      assert pids[..count] == pids[..count - 1] + [pid];
    }

    /** The search in one of the two fixed tables: the first entry that matches is cleared. */
    method ClearFirst(table: array<int>, pid: int) returns (found: bool)
      requires table == officePids || table == driverPids
      modifies table
      ensures found == (pid in old(table[..]))
      ensures table[..] == WithFirstCleared(old(table[..]), pid)
    {
      for i := 0 to table.Length
        invariant pid !in old(table[..i]) && table[..] == old(table[..])
      {
        assert old(table[..i + 1]) == old(table[..i]) + [old(table[i])];
        if pid == table[i] {
          assert IndexOf(old(table[..]), pid) == i;
          table[i] := 0;
          return true;
        }
      }
      return false;
    }

    /** handle_child_exit: the dispatcher, then the offices, then the drivers, and only then the passengers are
        searched for the pid; the first place that has it forgets it, and every other place stays as it is. */
    method HandleChildExit(pid: int)
      requires Valid()
      modifies this`dispatcherPid, this`count, officePids, driverPids, pids
      ensures Valid() && pids == old(pids) && capacity == old(capacity)
      ensures dispatcherPid == (if pid == old(dispatcherPid) then 0 else old(dispatcherPid))
      ensures officePids[..] ==
              (if pid != old(dispatcherPid) then WithFirstCleared(old(officePids[..]), pid) else old(officePids[..]))
      ensures driverPids[..] ==
              (if pid != old(dispatcherPid) && pid !in old(officePids[..])
               then WithFirstCleared(old(driverPids[..]), pid) else old(driverPids[..]))
      ensures Contents() == if old(IsStaff(pid)) then old(Contents()) else WithoutFirst(old(Contents()), pid)
    {
      if pid == dispatcherPid {
        dispatcherPid := 0;
        return;
      }
      var found := ClearFirst(officePids, pid);
      if !found {
        found := ClearFirst(driverPids, pid);
      }
      if !found {
        RemovePassenger(pid);
      }
    }

    /** The last loop of handle_child_exit. */
    method RemovePassenger(pid: int)
      requires Valid()
      modifies this`count, pids
      ensures Valid() && Contents() == WithoutFirst(old(Contents()), pid)
    {
      if pids == null {
        return;
      }
      ghost var before := pids[..count];
      var i := 0;
      while i < count
        invariant 0 <= i <= count == |before| && Valid() && pids != null && pids[..count] == before
        invariant forall j :: 0 <= j < i ==> before[j] != pid
      {
        if pids[i] == pid {
          assert before[i] == pid && IndexOf(before, pid) == i;
          assert WithoutFirst(before, pid) == SwapRemoved(before, i);
          SwapIn(i);
          return;
        }
        i := i + 1;
      }
    }

    /** `pids[i] = pids[--count]`. */
    method SwapIn(i: nat)
      requires Valid() && pids != null && i < count
      modifies this`count, pids
      ensures Valid() && Contents() == SwapRemoved(old(Contents()), i)
    {
      ghost var before := pids[..count];
      count := count - 1;
      pids[i] := pids[count];
      assert pids[..count] == before[..count][..i] + pids[i..count];
    }

    /** One passenger spawned and tracked, or one exit reaped and handled. */
    method Handle(event: Event)
      requires Valid() && !IsStaff(event.pid)
      modifies this`pids, this`count, this`capacity, this`dispatcherPid, officePids, driverPids, pids
      ensures Valid() && (pids == old(pids) || fresh(pids))
      ensures Contents() == TableStep(old(Contents()), event)
      ensures dispatcherPid == old(dispatcherPid) && officePids[..] == old(officePids[..])
      ensures driverPids[..] == old(driverPids[..])
    {
      match event {
        case Spawned(pid) =>
          var ok := TrackPassengerPid(pid, true);
        case Reaped(pid) =>
          HandleChildExit(pid);
      }
    }

    /** main's life with the table: it tracks each passenger it spawns and handles each exit it reaps, in any order.
        No passenger has the pid of a member of staff, and memory never runs out. */
    method Replay(events: seq<Event>)
      requires Valid() && Contents() == []
      requires forall k :: 0 <= k < |events| ==> !IsStaff(events[k].pid)
      modifies this`pids, this`count, this`capacity, this`dispatcherPid, officePids, driverPids, pids
      ensures Valid() && Contents() == TableAfter(events)
      ensures Sensible(events) ==> multiset(Contents()) == multiset(Present(events))
    {
      for i := 0 to |events|
        invariant Valid() && Contents() == TableAfter(events[..i]) && (pids == old(pids) || fresh(pids))
        invariant dispatcherPid == old(dispatcherPid) && officePids[..] == old(officePids[..])
        invariant driverPids[..] == old(driverPids[..])
      {
        assert events[..i + 1][..i] == events[..i];
        Handle(events[i]);
      }
      assert events[..|events|] == events;
      if Sensible(events) {
        TableMatchesPresent(events);
      }
    }
  }
}
