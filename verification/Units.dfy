/**
 The records the scheduler passes around: QueueUnit and Queue from the API, and the
 in-memory QueueUnitInfo of pkg/framework/type.go. Times and durations are nanoseconds;
 quantities are integers.
 */
module Units {
  import opened Orders

  datatype Phase = Enqueued | Dequeued | ScheduleSucced | ScheduleFailed

  type ResourceList = map<string, int>

  datatype QueueUnit = QueueUnit(
    namespace: string,
    name: string,
    consumerNamespace: string,
    priority: Option<int>,
    resource: ResourceList,
    phase: Phase)

  datatype Queue = Queue(namespace: string, priority: Option<int>)

  datatype QueueUnitInfo = QueueUnitInfo(
    name: string,
    unit: QueueUnit,
    timestamp: int,
    attempts: int,
    initialAttemptTimestamp: int)

  /** The key used by the heaps, the queues and the quota record alike. */
  function Key(u: QueueUnit): string
  {
    u.namespace + "/" + u.name
  }

  function NewQueueUnitInfo(u: QueueUnit, now: int): QueueUnitInfo
  {
    QueueUnitInfo(Key(u), u, now, 0, now)
  }

  function InfoKey(info: QueueUnitInfo): Option<string>
  {
    Some(info.name)
  }

  function PriorityOf(p: Option<int>): int
  {
    if p.Some? then p.value else 0
  }

  /** With no '/' in a namespace, the key determines both parts it was made from. */
  lemma KeyInjective(u: QueueUnit, v: QueueUnit)
    requires '/' !in u.namespace && '/' !in v.namespace
    ensures Key(u) == Key(v) <==> u.namespace == v.namespace && u.name == v.name
  {
    if Key(u) == Key(v) {
      var a, b := |u.namespace|, |v.namespace|;
      assert Key(u)[a] == '/' && Key(v)[b] == '/';
      assert forall i | 0 <= i < a :: Key(u)[i] == u.namespace[i];
      assert forall i | 0 <= i < b :: Key(v)[i] == v.namespace[i];
      assert a == b;
      assert u.namespace == Key(u)[..a] && u.name == Key(u)[a + 1..];
      assert v.namespace == Key(v)[..b] && v.name == Key(v)[b + 1..];
    }
  }

  /** Without that, two different units share one key. */
  lemma KeyCollision() returns (u: QueueUnit, v: QueueUnit)
    ensures Key(u) == Key(v) && u.namespace != v.namespace
  {
    u := QueueUnit("a", "b/c", "a", None, map[], Enqueued);
    v := QueueUnit("a/b", "c", "a/b", None, map[], Enqueued);
    assert |u.namespace| != |v.namespace|;
    assert "a" + "/" + "b/c" == "a/b" + "/" + "c";
  }
}
