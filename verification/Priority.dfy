/** The orders of pkg/framework/plugins/priority/priority.go. */
module Priority {
  import opened Orders
  import opened Units

  predicate MultiQueueLess(q1: Queue, q2: Queue)
  {
    PriorityOf(q1.priority) > PriorityOf(q2.priority)
  }

  predicate QueueLess(u1: QueueUnitInfo, u2: QueueUnitInfo)
  {
    var p1, p2 := PriorityOf(u1.unit.priority), PriorityOf(u2.unit.priority);
    p1 > p2 || (p1 == p2 && u1.initialAttemptTimestamp < u2.initialAttemptTimestamp)
  }

  /** Both comparators are strict weak orders, as the heap and the sort need. */
  lemma OrdersAreStrictWeak()
    ensures StrictWeakOrder(QueueLess) && StrictWeakOrder(MultiQueueLess)
  {
  }

  /** p is the larger of two priorities, a missing one being 0. */
  predicate Outranks(p: Option<int>, q: Option<int>)
  {
    match (p, q)
    case (Some(a), Some(b)) => a > b
    case (Some(a), None) => a > 0
    case (None, Some(b)) => 0 > b
    case (None, None) => false
  }

  /** Both comparators put the larger priority first, and QueueLess the earlier of two equals. */
  lemma LargerGoesFirst(u1: QueueUnitInfo, u2: QueueUnitInfo, q1: Queue, q2: Queue)
    ensures Outranks(u1.unit.priority, u2.unit.priority) ==> QueueLess(u1, u2) && !QueueLess(u2, u1)
    ensures !Outranks(u1.unit.priority, u2.unit.priority) && !Outranks(u2.unit.priority, u1.unit.priority) ==>
              (QueueLess(u1, u2) <==> u1.initialAttemptTimestamp < u2.initialAttemptTimestamp)
    ensures MultiQueueLess(q1, q2) <==> Outranks(q1.priority, q2.priority)
  {
  }

  /** Of two present priorities the larger integer goes first, and a missing one is as good as 0. */
  lemma MissingIsZero(u1: QueueUnitInfo, u2: QueueUnitInfo, q1: Queue, q2: Queue, a: int, b: int)
    ensures u1.unit.priority == Some(a) && u2.unit.priority == Some(b) && a > b ==> QueueLess(u1, u2)
    ensures q1.priority == Some(a) && q2.priority == Some(b) ==> (MultiQueueLess(q1, q2) <==> a > b)
    ensures u1.unit.priority == None ==>
              var v1 := u1.(unit := u1.unit.(priority := Some(0)));
              QueueLess(v1, u2) == QueueLess(u1, u2) && QueueLess(u2, v1) == QueueLess(u2, u1)
    ensures q1.priority == None ==>
              var p1 := q1.(priority := Some(0));
              MultiQueueLess(p1, q2) == MultiQueueLess(q1, q2) && MultiQueueLess(q2, p1) == MultiQueueLess(q2, q1)
  {
  }

  lemma OutranksIff(p: Option<int>, q: Option<int>)
    ensures Outranks(p, q) <==> PriorityOf(p) > PriorityOf(q)
  {
  }
}
