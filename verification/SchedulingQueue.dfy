/**
 The scheduling queue of pkg/queue/schedulingqueue/priority_scheduling_queue.go: an active
 heap ordered by QueueLess and a backoff heap ordered by backoff completion time.
 */
module SchedulingQueues {
  import opened Orders
  import opened Units
  import opened KeyedHeap
  import opened QueueSpec
  import Priority
  import Backoff

  /** The i-th reading of a clock. */
  function Reading(now: nat -> int, i: nat): int
  {
    now(i)
  }

  /** A clock never goes back. */
  ghost predicate Clock(now: nat -> int)
  {
    forall i: nat, j: nat | i <= j :: Reading(now, i) <= Reading(now, j)
  }

  /** When each entry of s is done backing off. */
  function DoneAt(initial: int, max: int, s: QueueState<QueueUnitInfo>, k: string): int
    requires Backoff.IsInt64(initial) && Backoff.IsInt64(max) && k in s.backoff
  {
    Backoff.BackoffTime(initial, max, s.backoff[k])
  }

  /** The entries that are done at time t. */
  function DoneBy(initial: int, max: int, s: QueueState<QueueUnitInfo>, t: int): set<string>
    requires Backoff.IsInt64(initial) && Backoff.IsInt64(max)
  {
    set k | k in s.backoff && DoneAt(initial, max, s, k) <= t
  }

  /** A flush that has moved `moved` out of s so far, each entry done at its own reading. */
  ghost predicate FlushProgress(initial: int, max: int, s: QueueState<QueueUnitInfo>, moved: set<string>,
                                now: nat -> int, readings: nat)
    requires Backoff.IsInt64(initial) && Backoff.IsInt64(max)
  {
    && moved <= s.backoff.Keys
    && (readings == 0 ==> moved == {})
    && (readings > 0 ==> s.backoff != map[])
    && forall k | k in moved :: readings > 0 && DoneAt(initial, max, s, k) <= Reading(now, readings - 1)
  }

  /**
   A finished flush of s: every entry that was done at the first reading has moved, none
   that was not done at the last one has, and all that stay were not done at the last one.
   */
  ghost predicate FlushDone(initial: int, max: int, s: QueueState<QueueUnitInfo>, moved: set<string>,
                            now: nat -> int, readings: nat)
    requires Backoff.IsInt64(initial) && Backoff.IsInt64(max)
  {
    && moved <= s.backoff.Keys
    && (readings == 0 <==> s.backoff == map[])
    && forall k | k in s.backoff ::
         && (k in moved ==> DoneAt(initial, max, s, k) <= Reading(now, readings - 1))
         && (k !in moved ==> DoneAt(initial, max, s, k) > Reading(now, readings - 1) >= Reading(now, 0))
  }

  /** However often it reads the clock, a finished flush has moved exactly the entries done at its last reading. */
  lemma FlushMovesExactly(initial: int, max: int, s: QueueState<QueueUnitInfo>, moved: set<string>,
                          now: nat -> int, readings: nat)
    requires Backoff.IsInt64(initial) && Backoff.IsInt64(max) && FlushDone(initial, max, s, moved, now, readings)
    ensures if readings == 0 then s.backoff == map[] && moved == {}
            else moved == DoneBy(initial, max, s, Reading(now, readings - 1))
  {
    if readings > 0 {
      forall k ensures k in moved <==> k in DoneBy(initial, max, s, Reading(now, readings - 1)) { }
    }
  }

  lemma FlushMovesOne(initial: int, max: int, s: QueueState<QueueUnitInfo>, moved: set<string>,
                      now: nat -> int, readings: nat, k: string)
    requires Backoff.IsInt64(initial) && Backoff.IsInt64(max) && Clock(now)
    requires FlushProgress(initial, max, s, moved, now, readings)
    requires k in Flushed(s, moved).backoff && DoneAt(initial, max, s, k) <= Reading(now, readings)
    ensures FlushProgress(initial, max, s, moved + {k}, now, readings + 1)
    ensures var t := Flushed(s, moved);
            Flushed(s, moved + {k}) == QueueState(t.active[k := t.backoff[k]], t.backoff - {k})
  {
    assert readings > 0 ==> Reading(now, readings - 1) <= Reading(now, readings);
    var t, t' := Flushed(s, moved), Flushed(s, moved + {k});
    assert t'.active == t.active[k := t.backoff[k]];
    assert t'.backoff == t.backoff - {k};
  }

  lemma FlushNothing(s: QueueState<QueueUnitInfo>)
    ensures Flushed(s, {}) == s
  {
  }

  lemma FlushEmpties(initial: int, max: int, s: QueueState<QueueUnitInfo>, moved: set<string>,
                     now: nat -> int, readings: nat)
    requires Backoff.IsInt64(initial) && Backoff.IsInt64(max)
    requires FlushProgress(initial, max, s, moved, now, readings)
    requires Flushed(s, moved).backoff == map[]
    ensures FlushDone(initial, max, s, moved, now, readings)
  {
    assert forall k | k in s.backoff :: k in Flushed(s, moved).backoff || k in moved;
    assert readings == 0 ==> s.backoff == map[];
  }

  lemma FlushStops(initial: int, max: int, s: QueueState<QueueUnitInfo>, moved: set<string>,
                   now: nat -> int, readings: nat, top: QueueUnitInfo)
    requires Backoff.IsInt64(initial) && Backoff.IsInt64(max) && Clock(now)
    requires FlushProgress(initial, max, s, moved, now, readings)
    requires Least(Backoff.BackoffLess(initial, max), Flushed(s, moved).backoff, top)
    requires Backoff.BackoffTime(initial, max, top) > Reading(now, readings) && s.backoff != map[]
    ensures FlushDone(initial, max, s, moved, now, readings + 1)
  {
    assert readings > 0 ==> Reading(now, readings - 1) <= Reading(now, readings);
    assert Reading(now, 0) <= Reading(now, readings);
    forall k | k in s.backoff && k !in moved ensures DoneAt(initial, max, s, k) > Reading(now, readings) {
      var t := Flushed(s, moved);
      assert k in t.backoff && !Before(Backoff.BackoffLess(initial, max), t.backoff[k], top);
    }
  }

  /** After a flush nothing has been backing off for longer than the longest backoff. */
  lemma BoundedBackoff(initial: int, max: int, s: QueueState<QueueUnitInfo>, moved: set<string>,
                       now: nat -> int, readings: nat, k: string)
    requires Backoff.IsInt64(initial) && Backoff.IsInt64(max)
    requires FlushDone(initial, max, s, moved, now, readings) && k in Flushed(s, moved).backoff
    ensures readings > 0
    ensures Flushed(s, moved).backoff[k].timestamp > Reading(now, readings - 1) - Backoff.Max(initial, max)
  {
    Backoff.StillBackingOff(initial, max, s.backoff[k], Reading(now, readings - 1));
  }

  class SchedulingQueue {
    const queue: Queue
    const initial: int
    const max: int
    const items: Heap<QueueUnitInfo>
    const backoffQ: Heap<QueueUnitInfo>

    ghost predicate Valid()
      reads items, backoffQ
    {
      && Backoff.IsInt64(initial) && Backoff.IsInt64(max)
      && items != backoffQ
      && items.keyFunc == InfoKey && backoffQ.keyFunc == InfoKey
      && items.less == Priority.QueueLess
      && backoffQ.less == Backoff.BackoffLess(initial, max)
      && items.Valid() && backoffQ.Valid()
    }

    ghost function View(): QueueState<QueueUnitInfo>
      reads items, backoffQ
    {
      QueueState(items.View(), backoffQ.View())
    }

    constructor (queue: Queue, initial: int, max: int)
      requires Backoff.IsInt64(initial) && Backoff.IsInt64(max)
      ensures Valid() && View() == QueueState(map[], map[])
      ensures this.queue == queue && this.initial == initial && this.max == max
      ensures fresh(items) && fresh(backoffQ)
    {
      Priority.OrdersAreStrictWeak();
      Backoff.BackoffLessIsStrictWeak(initial, max);
      this.queue, this.initial, this.max := queue, initial, max;
      items := new Heap(InfoKey, Priority.QueueLess);
      backoffQ := new Heap(InfoKey, Backoff.BackoffLess(initial, max));
    }

    method Length() returns (n: nat)
      requires Valid()
      ensures n == |View().active| && (n == 0 <==> View().active == map[])
    {
      n := items.Len();
    }

    method Add(u: QueueUnit, now: int)
      requires Valid()
      modifies items
      ensures Valid() && View() == Added(old(View()), Key(u), NewQueueUnitInfo(u, now))
    {
      var err := items.Add(NewQueueUnitInfo(u, now));
    }

    method AddUnschedulableIfNotPresent(info: QueueUnitInfo)
      requires Valid()
      modifies backoffQ
      ensures Valid() && View() == AddedUnschedulable(old(View()), info.name, info)
    {
      var found, err := items.Get(info);
      if found.Some? {
        return;
      }
      found, err := backoffQ.Get(info);
      if found.Some? {
        return;
      }
      err := backoffQ.Add(info);
    }

    method Delete(u: QueueUnit)
      requires Valid()
      modifies items, backoffQ
      ensures Valid() && View() == Deleted(old(View()), Key(u))
    {
      var key := Key(u);
      var found := items.GetByKey(key);
      if found.Some? {
        StoredName(items, key);
        var err := items.Delete(found.value);
        return;
      }
      found := backoffQ.GetByKey(key);
      if found.Some? {
        StoredName(backoffQ, key);
        var err := backoffQ.Delete(found.value);
      }
    }

    method Update(u: QueueUnit, now: int)
      requires Valid()
      modifies items, backoffQ
      ensures Valid() && View() == Updated(old(View()), Key(u), NewQueueUnitInfo(u, now))
    {
      var info := NewQueueUnitInfo(u, now);
      var key := Key(u);
      var found := items.GetByKey(key);
      if found.Some? {
        var err := items.Update(info);
        return;
      }
      found := backoffQ.GetByKey(key);
      if found.Some? {
        var err := backoffQ.Update(info);
      }
    }

    /** Pop from an empty active heap panics; schedule calls it only after Length. */
    method Pop() returns (info: QueueUnitInfo)
      requires Valid() && View().active != map[]
      modifies items
      ensures Valid()
      ensures info.name in old(View()).active && old(View()).active[info.name] == info
      ensures Least(Priority.QueueLess, old(View()).active, info)
      ensures forall k | k in old(View()).active :: NotAhead(old(View()).active[k], info)
      ensures View() == Popped(old(View()), info.name)
    {
      ghost var s := View();
      info := items.Pop();
      LeastIsFirst(s.active, info);
    }

    /** One round of the flush: the top of the backoff heap becomes active. */
    method PromoteTop(top: QueueUnitInfo)
      requires Valid() && |backoffQ.queue| > 0 && backoffQ.View() != map[] && backoffQ.Objs()[0] == top
      modifies items, backoffQ
      ensures Valid()
      ensures top.name in old(View()).backoff && old(View()).backoff[top.name] == top
      ensures View() == QueueState(old(View()).active[top.name := top], old(View()).backoff - {top.name})
      ensures |View().backoff| < |old(View()).backoff|
    {
      var popped := backoffQ.Pop();
      var err := items.Add(top);
      RemoveShrinks(old(View()).backoff, top.name);
    }

    /** One turn of flushBackoffQCompleted's loop, which reads the clock if there is an entry to look at. */
    method FlushOne(now: nat -> int, ghost s: QueueState<QueueUnitInfo>, readings: nat, ghost moved: set<string>)
      returns (done: bool, readings': nat, ghost moved': set<string>)
      requires Valid() && Clock(now) && FlushProgress(initial, max, s, moved, now, readings)
      requires View() == Flushed(s, moved)
      modifies items, backoffQ
      ensures Valid() && moved' <= s.backoff.Keys && View() == Flushed(s, moved')
      ensures done ==> FlushDone(initial, max, s, moved', now, readings')
      ensures !done ==>
                FlushProgress(initial, max, s, moved', now, readings') && |View().backoff| < |old(View()).backoff|
    {
      done, readings', moved' := true, readings, moved;
      var top := backoffQ.Peek();
      if top.None? {
        FlushEmpties(initial, max, s, moved, now, readings);
        return;
      }
      readings' := readings + 1;
      if Backoff.BackoffTime(initial, max, top.value) > Reading(now, readings) {
        FlushStops(initial, max, s, moved, now, readings, top.value);
        return;
      }
      FlushMovesOne(initial, max, s, moved, now, readings, top.value.name);
      PromoteTop(top.value);
      done, moved' := false, moved + {top.value.name};
    }

    /** flushBackoffQCompleted. The clock is read once for each entry looked at. */
    method FlushBackoffQCompleted(now: nat -> int) returns (readings: nat, ghost moved: set<string>)
      requires Valid() && Clock(now)
      modifies items, backoffQ
      ensures Valid()
      ensures FlushDone(initial, max, old(View()), moved, now, readings)
      ensures View() == Flushed(old(View()), moved)
    {
      readings, moved := 0, {};
      ghost var s := View();
      FlushNothing(s);
      var done := false;
      while !done
        invariant Valid() && moved <= s.backoff.Keys && View() == Flushed(s, moved)
        invariant if done then FlushDone(initial, max, s, moved, now, readings)
                  else FlushProgress(initial, max, s, moved, now, readings)
        decreases !done, |backoffQ.View()|
      {
        done, readings, moved := FlushOne(now, s, readings, moved);
      }
    }
  }

  /** other is not ahead of info: not of larger priority, nor of the same and first attempted earlier. */
  predicate NotAhead(other: QueueUnitInfo, info: QueueUnitInfo)
  {
    && !Priority.Outranks(other.unit.priority, info.unit.priority)
    && (Priority.Outranks(info.unit.priority, other.unit.priority) ||
        info.initialAttemptTimestamp <= other.initialAttemptTimestamp)
  }

  lemma LeastIsFirst(m: map<string, QueueUnitInfo>, info: QueueUnitInfo)
    requires Least(Priority.QueueLess, m, info)
    ensures forall k | k in m :: NotAhead(m[k], info)
  {
    forall k | k in m ensures NotAhead(m[k], info) {
      assert !Before(Priority.QueueLess, m[k], info);
    }
  }

  /** A stored info carries the key it is stored under. */
  lemma StoredName(h: Heap<QueueUnitInfo>, key: string)
    requires h.Valid() && h.keyFunc == InfoKey && key in h.View()
    ensures h.View()[key].name == key
  {
  }

  /** What an update leaves of an entry that was backing off: the unit given, done after the initial duration. */
  lemma UpdatedEntry(initial: int, max: int, s: QueueState<QueueUnitInfo>, u: QueueUnit, now: int)
    requires Backoff.IsInt64(initial) && Backoff.IsInt64(max) && Key(u) in s.backoff && Key(u) !in s.active
    ensures var t := Updated(s, Key(u), NewQueueUnitInfo(u, now));
            && Key(u) !in t.active && Key(u) in t.backoff && t.backoff[Key(u)].unit == u
            && DoneAt(initial, max, t, Key(u)) == now + initial
  {
  }

  /**
   An update gives a unit that is backing off the unit it came with and starts its backoff afresh:
   the next flush makes it active exactly when its last reading is at least the initial duration
   after the update.
   */
  method UpdateThenFlush(q: SchedulingQueue, u: QueueUnit, now: int, clock: nat -> int) returns (readings: nat)
    requires q.Valid() && Clock(clock) && Key(u) in q.View().backoff && Key(u) !in q.View().active
    modifies q.items, q.backoffQ
    ensures q.Valid() && readings > 0
    ensures Reading(clock, readings - 1) >= now + q.initial <==> Key(u) in q.View().active
    ensures Reading(clock, readings - 1) < now + q.initial <==> Key(u) in q.View().backoff
    ensures Key(u) in q.View().active ==> q.View().active[Key(u)].unit == u
    ensures Key(u) in q.View().backoff ==> q.View().backoff[Key(u)].unit == u
  {
    UpdatedEntry(q.initial, q.max, q.View(), u, now);
    q.Update(u, now);
    ghost var moved;
    readings, moved := q.FlushBackoffQCompleted(clock);
  }
}
