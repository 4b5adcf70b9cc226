/** SortedQueue of pkg/queue/multischedulingqueue/multi_scheduling_queue.go. */
module MultiSchedulingQueues {
  import opened Units
  import opened SchedulingQueues
  import Priority

  /** A queue's priority, a missing one counted as 0. */
  function Rank(q: SchedulingQueue): int
  {
    PriorityOf(q.queue.priority)
  }

  predicate Descending(qs: seq<SchedulingQueue>)
  {
    forall i, j | 0 <= i < j < |qs| :: Rank(qs[i]) >= Rank(qs[j])
  }

  predicate NoDuplicates(qs: seq<SchedulingQueue>)
  {
    forall i, j | 0 <= i < j < |qs| :: qs[i] != qs[j]
  }

  class MultiSchedulingQueue {
    var queueMap: map<string, SchedulingQueue>

    /** Every queue is filed under its own name. */
    ghost predicate Valid()
      reads this
    {
      forall n | n in queueMap :: queueMap[n].queue.namespace == n
    }

    constructor ()
      ensures Valid() && queueMap == map[]
    {
      queueMap := map[];
    }

    /** The queues in whatever order the map gives them. */
    method Collect() returns (qs: seq<SchedulingQueue>)
      requires Valid()
      ensures NoDuplicates(qs) && |qs| == |queueMap|
      ensures forall q :: q in qs <==> q in queueMap.Values
    {
      qs := [];
      var todo := queueMap.Keys;
      while todo != {}
        invariant todo <= queueMap.Keys && |qs| + |todo| == |queueMap|
        invariant forall i | 0 <= i < |qs| ::
            qs[i].queue.namespace in queueMap.Keys - todo && queueMap[qs[i].queue.namespace] == qs[i]
        invariant forall n | n in queueMap.Keys - todo :: queueMap[n] in qs
        invariant NoDuplicates(qs)
      {
        var n :| n in todo;
        qs := qs + [queueMap[n]];
        todo := todo - {n};
      }
    }

    /** Every queue of the map exactly once, in non-increasing priority. */
    method SortedQueue() returns (sorted: seq<SchedulingQueue>)
      requires Valid()
      ensures NoDuplicates(sorted) && |sorted| == |queueMap|
      ensures forall q :: q in sorted <==> q in queueMap.Values
      ensures Descending(sorted)
      ensures forall i, j | 0 <= i < j < |sorted| ::
                !Priority.Outranks(sorted[j].queue.priority, sorted[i].queue.priority)
    {
      var qs := Collect();
      sorted := [];
      for n := 0 to |qs|
        invariant |sorted| == n && Descending(sorted)
        invariant multiset(sorted) == multiset(qs[..n])
      {
        sorted := Insert(sorted, qs[n]);
        assert qs[..n + 1] == qs[..n] + [qs[n]];
      }
      assert qs[..|qs|] == qs;
      SamePermutation(qs, sorted);
    }
  }

  /** One round of the sort: q goes behind the last queue it does not go before. */
  method Insert(sorted: seq<SchedulingQueue>, q: SchedulingQueue) returns (more: seq<SchedulingQueue>)
    requires Descending(sorted)
    ensures Descending(more) && multiset(more) == multiset(sorted) + multiset{q} && |more| == |sorted| + 1
  {
    var i := |sorted|;
    while i > 0 && Priority.MultiQueueLess(q.queue, sorted[i - 1].queue)
      invariant 0 <= i <= |sorted|
      invariant forall j | i <= j < |sorted| :: Rank(q) > Rank(sorted[j])
    {
      i := i - 1;
    }
    InsertKeepsOrder(sorted, i, q);
    more := Inserted(sorted, i, q);
  }

  function Inserted(s: seq<SchedulingQueue>, i: nat, q: SchedulingQueue): (t: seq<SchedulingQueue>)
    requires i <= |s|
    ensures multiset(t) == multiset(s) + multiset{q}
  {
    assert s == s[..i] + s[i..];
    s[..i] + [q] + s[i..]
  }

  lemma InsertKeepsOrder(s: seq<SchedulingQueue>, i: nat, q: SchedulingQueue)
    requires Descending(s) && i <= |s|
    requires i > 0 ==> Rank(s[i - 1]) >= Rank(q)
    requires forall j | i <= j < |s| :: Rank(q) > Rank(s[j])
    ensures Descending(Inserted(s, i, q))
  {
    assert forall j | 0 <= j < i :: Rank(s[j]) >= Rank(s[i - 1]);
  }

  /** A permutation of a sequence without duplicates has the same members and no duplicates. */
  lemma SamePermutation(a: seq<SchedulingQueue>, b: seq<SchedulingQueue>)
    requires multiset(a) == multiset(b) && NoDuplicates(a)
    ensures NoDuplicates(b) && |a| == |b|
    ensures forall q :: q in b <==> q in a
  {
    assert |multiset(a)| == |a| && |multiset(b)| == |b|;
    forall q ensures q in b <==> q in a {
      assert q in a <==> q in multiset(a);
      assert q in b <==> q in multiset(b);
    }
    forall i, j | 0 <= i < j < |b| ensures b[i] != b[j] {
      if b[i] == b[j] {
        assert b == b[..i] + [b[i]] + b[i + 1..j] + [b[j]] + b[j + 1..];
        AtMostOnce(a, b[i]);
      }
    }
  }

  lemma {:induction false} AtMostOnce(a: seq<SchedulingQueue>, q: SchedulingQueue)
    requires NoDuplicates(a)
    ensures multiset(a)[q] <= 1
  {
    if |a| > 0 {
      var n := |a| - 1;
      assert a == a[..n] + [a[n]];
      AtMostOnce(a[..n], q);
      if a[n] == q {
        assert q !in a[..n];
        assert q !in multiset(a[..n]);
      }
    }
  }
}
