/**
 What the operations of a scheduling queue do to its two key-to-entry maps, with entries of
 any kind: unit infos in the sequential queue, object references in the admission protocol.
 */
module QueueSpec {
  import opened Orders

  datatype QueueState<V> = QueueState(active: map<string, V>, backoff: map<string, V>)

  function Added<V>(s: QueueState<V>, k: string, v: V): QueueState<V>
  {
    s.(active := s.active[k := v])
  }

  function AddedUnschedulable<V>(s: QueueState<V>, k: string, v: V): QueueState<V>
  {
    if k in s.active || k in s.backoff then s else s.(backoff := s.backoff[k := v])
  }

  function Deleted<V>(s: QueueState<V>, k: string): QueueState<V>
  {
    if k in s.active then s.(active := s.active - {k})
    else if k in s.backoff then s.(backoff := s.backoff - {k})
    else s
  }

  function Updated<V>(s: QueueState<V>, k: string, v: V): QueueState<V>
  {
    if k in s.active then s.(active := s.active[k := v])
    else if k in s.backoff then s.(backoff := s.backoff[k := v])
    else s
  }

  function Popped<V>(s: QueueState<V>, k: string): QueueState<V>
  {
    s.(active := s.active - {k})
  }

  function Flushed<V>(s: QueueState<V>, moved: set<string>): QueueState<V>
    requires moved <= s.backoff.Keys
  {
    QueueState(s.active + (map k | k in moved :: s.backoff[k]), s.backoff - moved)
  }

  predicate Disjoint<V>(s: QueueState<V>)
  {
    s.active.Keys !! s.backoff.Keys
  }

  datatype Op<V> =
    | Add(k: string, v: V)
    | AddUnschedulable(k: string, v: V)
    | Delete(k: string)
    | Update(k: string, v: V)
    | Pop(k: string)
    | Flush(moved: set<string>)

  predicate Enabled<V>(s: QueueState<V>, op: Op<V>)
  {
    match op
    case Pop(k) => k in s.active
    case Flush(moved) => moved <= s.backoff.Keys
    case _ => true
  }

  function Apply<V>(s: QueueState<V>, op: Op<V>): QueueState<V>
    requires Enabled(s, op)
  {
    match op
    case Add(k, v) => Added(s, k, v)
    case AddUnschedulable(k, v) => AddedUnschedulable(s, k, v)
    case Delete(k) => Deleted(s, k)
    case Update(k, v) => Updated(s, k, v)
    case Pop(k) => Popped(s, k)
    case Flush(moved) => Flushed(s, moved)
  }

  /** Each operation is enabled, and Add is called only for keys that are not backing off. */
  predicate Careful<V>(s: QueueState<V>, ops: seq<Op<V>>)
    decreases |ops|
  {
    |ops| == 0 ||
    (Enabled(s, ops[0]) && (ops[0].Add? ==> ops[0].k !in s.backoff) && Careful(Apply(s, ops[0]), ops[1..]))
  }

  function Run<V>(s: QueueState<V>, ops: seq<Op<V>>): QueueState<V>
    requires Careful(s, ops)
    decreases |ops|
  {
    if |ops| == 0 then s else Run(Apply(s, ops[0]), ops[1..])
  }

  /** What Delete and Update find under a key: the active entry, else the one that is backing off. */
  function Find<V>(s: QueueState<V>, k: string): Option<V>
  {
    if k in s.active then Some(s.active[k]) else if k in s.backoff then Some(s.backoff[k]) else None
  }

  /** What each operation on k leaves to be found under any key. */
  lemma FindAfter<V>(s: QueueState<V>, k: string, v: V, j: string)
    ensures Find(Added(s, k, v), j) == if j == k then Some(v) else Find(s, j)
    ensures Find(AddedUnschedulable(s, k, v), j) == if j == k && Find(s, k) == None then Some(v) else Find(s, j)
    ensures Find(Updated(s, k, v), j) == if j == k && Find(s, k) != None then Some(v) else Find(s, j)
    ensures j != k ==> Find(Deleted(s, k), j) == Find(s, j)
    ensures Find(Deleted(s, k), k) == if k in s.active && k in s.backoff then Some(s.backoff[k]) else None
  {
  }

  /** Which heap each of them touches: a unit in both is found, updated and deleted in the active one. */
  lemma ActiveHeapFirst<V>(s: QueueState<V>, k: string, v: V)
    ensures Added(s, k, v).backoff == s.backoff && AddedUnschedulable(s, k, v).active == s.active
    ensures Updated(s, k, v).active.Keys == s.active.Keys && Updated(s, k, v).backoff.Keys == s.backoff.Keys
    ensures k in s.active ==> Updated(s, k, v).backoff == s.backoff && Deleted(s, k).backoff == s.backoff
    ensures k !in s.active ==> Updated(s, k, v).active == s.active && Deleted(s, k).active == s.active
    ensures k in s.active ==> k !in Deleted(s, k).active
  {
  }

  /** From disjoint heaps one operation keeps them disjoint unless it is a careless Add. */
  lemma StepDisjointIff<V>(s: QueueState<V>, op: Op<V>)
    requires Disjoint(s) && Enabled(s, op)
    ensures Disjoint(Apply(s, op)) <==> !(op.Add? && op.k in s.backoff)
  {
  }

  /** Active and backoff heaps stay key-disjoint under every careful sequence of operations. */
  lemma {:induction false} DisjointForever<V>(s: QueueState<V>, ops: seq<Op<V>>)
    requires Disjoint(s) && Careful(s, ops)
    ensures Disjoint(Run(s, ops))
    decreases |ops|
  {
    if |ops| > 0 {
      StepDisjointIff(s, ops[0]);
      DisjointForever(Apply(s, ops[0]), ops[1..]);
    }
  }

  /** Delete looks in one heap only: the key is gone exactly when it was not in both. */
  lemma DeleteGoneIff<V>(s: QueueState<V>, k: string)
    ensures k !in Deleted(s, k).active && k !in Deleted(s, k).backoff
            <==> !(k in s.active && k in s.backoff)
    ensures forall j | j != k ::
              (j in Deleted(s, k).active <==> j in s.active) && (j in Deleted(s, k).backoff <==> j in s.backoff)
  {
  }

  /** A flush from disjoint heaps preserves their combined contents, with nothing overwritten. */
  lemma FlushPreservesContents<V>(s: QueueState<V>, moved: set<string>)
    requires moved <= s.backoff.Keys && Disjoint(s)
    ensures var t := Flushed(s, moved);
            Disjoint(t) && t.active + t.backoff == s.active + s.backoff
  {
  }

  lemma FlushedKeys<V>(s: QueueState<V>, moved: set<string>)
    requires moved <= s.backoff.Keys
    ensures Flushed(s, moved).active.Keys == s.active.Keys + moved
    ensures Flushed(s, moved).backoff.Keys == s.backoff.Keys - moved
  {
  }

  /** In general it overwrites no entry exactly when no moved key is active already. */
  lemma FlushConservesIff<V>(s: QueueState<V>, moved: set<string>)
    requires moved <= s.backoff.Keys
    ensures var t := Flushed(s, moved);
            |t.active.Keys| + |t.backoff.Keys| == |s.active.Keys| + |s.backoff.Keys| <==> moved !! s.active.Keys
  {
    FlushedKeys(s, moved);
    MoveCount(s.active.Keys, s.backoff.Keys, moved);
  }

  lemma MoveCount(a: set<string>, b: set<string>, moved: set<string>)
    requires moved <= b
    ensures |a + moved| + |b - moved| == |a| + |b| <==> moved !! a
  {
  }
}
