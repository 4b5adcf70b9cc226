/** What the objects themselves go through: changes in place, and the age of an info. */
module AdmissionHistory {
  import opened Orders
  import opened Units
  import opened QueueSpec
  import opened Admission
  import opened AdmissionPlaces
  import opened AdmissionTokens
  import HeapOrder
  import Priority

  /** Some heap of some queue refers to o. */
  predicate InHeap(queues: map<string, QueueState<ObjId>>, o: ObjId)
  {
    exists q | q in queues :: o in queues[q].active.Values || o in queues[q].backoff.Values
  }

  /** An object held by the scheduler or a goroutine is in no heap. */
  lemma HeldIsInNoHeap(s: State, k: string, p: Place)
    requires Resolved(s) && Single(s) && At(s, k, p) && (p.Hand? || p.InFlight?)
    ensures !InHeap(s.queues, ObjAt(s, k, p).value)
  {
    var o := ObjAt(s, k, p).value;
    forall q | q in s.queues ensures o !in s.queues[q].active.Values && o !in s.queues[q].backoff.Values {
      forall j | j in s.queues[q].active ensures s.queues[q].active[j] != o {
        assert At(s, j, Active(q)) && (j == k ==> At(s, k, Active(q)));
      }
      forall j | j in s.queues[q].backoff ensures s.queues[q].backoff[j] != o {
        assert At(s, j, Backing(q)) && (j == k ==> At(s, k, Backing(q)));
      }
    }
  }

  /** The object a step changes in place, if any: the one ErrorFunc is working on. */
  function Worked(s: State, step: Step): Option<ObjId>
  {
    match step
    case ByLoop(op) => if op == HandBump || op == HandLookup(true) then HandObj(s) else None
    case ByFlight(g, op) =>
      if (op == FlightBump || op == FlightLookup(true)) && g in s.flights then Some(s.flights[g].obj) else None
    case _ => None
  }

  lemma LoopWorks(cfg: Config, s: State, op: LoopOp, s': State)
    requires LoopStep(cfg, s, op, s')
    ensures forall o | o in s.store ::
              && o in s'.store && s'.store[o].initialAttemptTimestamp == s.store[o].initialAttemptTimestamp
              && (s'.store[o] == s.store[o] || Worked(s, ByLoop(op)) == Some(o))
    ensures Worked(s, ByLoop(op)).Some? ==> s'.queues == s.queues
  {
    if op != HandBump && op != HandLookup(true) {
      assert s'.store == s.store;
    }
  }

  lemma FlightWorks(s: State, g: nat, op: FlightOp, s': State)
    requires FlightStep(s, g, op, s')
    ensures forall o | o in s.store ::
              && o in s'.store && s'.store[o].initialAttemptTimestamp == s.store[o].initialAttemptTimestamp
              && (s'.store[o] == s.store[o] || Worked(s, ByFlight(g, op)) == Some(o))
    ensures Worked(s, ByFlight(g, op)).Some? ==> s'.queues == s.queues
  {
  }

  lemma ControllerWorks(cfg: Config, s: State, op: ControllerOp, s': State)
    requires ControllerStep(cfg, s, op, s')
    ensures forall o | o in s.store :: o in s'.store && s'.store[o] == s.store[o]
  {
  }

  lemma WorkedIsInNoHeap(s: State, step: Step)
    requires Resolved(s) && Single(s) && Worked(s, step).Some?
    ensures !InHeap(s.queues, Worked(s, step).value)
  {
    if step.ByLoop? {
      assert At(s, HandName(s), Hand);
      HeldIsInNoHeap(s, HandName(s), Hand);
    } else {
      assert At(s, FlightName(s, step.g), InFlight(step.g));
      HeldIsInNoHeap(s, FlightName(s, step.g), InFlight(step.g));
    }
  }

  /** Only ErrorFunc changes an existing object, and then it leaves the queues alone. */
  lemma StepWorks(cfg: Config, s: State, step: Step, s': State)
    requires Next(cfg, s, step, s')
    ensures forall o | o in s.store :: o in s'.store && (s'.store[o] == s.store[o] || Worked(s, step) == Some(o))
    ensures Worked(s, step).Some? ==> s'.queues == s.queues
  {
    match step
    case ByUser(op) =>
    case ByController(op) => ControllerWorks(cfg, s, op, s');
    case ByLoop(op) => LoopWorks(cfg, s, op, s');
    case ByFlight(g, op) => FlightWorks(s, g, op, s');
  }

  /**
   An object whose fields a step changes is in no heap, before or after the step: the heaps
   never see a key of their order move.
   */
  lemma ChangedObjectsAreInNoHeap(cfg: Config, s: State, step: Step, s': State, o: ObjId)
    requires Resolved(s) && Single(s) && Next(cfg, s, step, s')
    requires o in s.store
    ensures o in s'.store
    ensures s'.store[o] != s.store[o] ==> !InHeap(s.queues, o) && !InHeap(s'.queues, o)
  {
    StepWorks(cfg, s, step, s');
    if Worked(s, step).Some? {
      WorkedIsInNoHeap(s, step);
    }
  }

  /** The objects of heap m in the slice order given by layout. */
  function LaidOut(s: State, m: map<string, ObjId>, layout: seq<string>): (objs: seq<QueueUnitInfo>)
    requires forall i | 0 <= i < |layout| :: layout[i] in m && m[layout[i]] in s.store
    ensures |objs| == |layout|
  {
    seq(|layout|, i requires 0 <= i < |layout| => s.store[m[layout[i]]])
  }

  /**
   However a heap is laid out, a step that leaves its references alone leaves the objects
   behind them alone, so an ordered layout stays ordered under any comparator.
   */
  lemma LayoutStaysOrdered(cfg: Config, s: State, step: Step, s': State, q: string, m: map<string, ObjId>,
                           layout: seq<string>, less: (QueueUnitInfo, QueueUnitInfo) -> bool)
    requires Resolved(s) && Single(s) && Next(cfg, s, step, s')
    requires q in s.queues && (m == s.queues[q].active || m == s.queues[q].backoff)
    requires forall i | 0 <= i < |layout| :: layout[i] in m
    ensures forall i | 0 <= i < |layout| :: m[layout[i]] in s.store && m[layout[i]] in s'.store
    ensures LaidOut(s', m, layout) == LaidOut(s, m, layout)
    ensures HeapOrder.Ordered(less, LaidOut(s, m, layout), |layout|) ==>
            HeapOrder.Ordered(less, LaidOut(s', m, layout), |layout|)
  {
    forall i | 0 <= i < |layout|
      ensures m[layout[i]] in s.store && m[layout[i]] in s'.store && s'.store[m[layout[i]]] == s.store[m[layout[i]]]
    {
      var o := m[layout[i]];
      assert At(s, layout[i], if m == s.queues[q].active then Active(q) else Backing(q));
      assert o in m.Values;
      ChangedObjectsAreInNoHeap(cfg, s, step, s', o);
    }
  }

  // ---------- the age of an info ----------

  /**
   The age of the info o of unit k: never before the unit was first added, and exactly then
   unless an update event gave it a new info.
   */
  predicate Aged(s: State, k: string, o: ObjId)
  {
    && k in s.firstSeen && o in s.store
    && s.firstSeen[k] <= s.store[o].initialAttemptTimestamp <= s.now
    && (k !in s.renewed ==> s.store[o].initialAttemptTimestamp == s.firstSeen[k])
  }

  ghost predicate Dated(s: State)
  {
    forall k, p | At(s, k, p) :: Aged(s, k, ObjAt(s, k, p).value)
  }

  ghost predicate AgesKept(s: State, s': State)
  {
    && (forall o | o in s.store ::
          o in s'.store && s'.store[o].initialAttemptTimestamp == s.store[o].initialAttemptTimestamp)
    && s.renewed <= s'.renewed && s.now <= s'.now
  }

  lemma EffectKeepsDated(s: State, e: Effect, s': State)
    requires Dated(s) && Effected(s, e, s') && Sound(s, e) && AgesKept(s, s')
    requires e.Arrive? ==> Aged(s', e.k, e.o)
    requires forall k | k in s.firstSeen && !(e.Arrive? && e.k == k) ::
               k in s'.firstSeen && s'.firstSeen[k] == s.firstSeen[k]
    ensures Dated(s')
  {
    forall k, p | At(s', k, p) ensures Aged(s', k, ObjAt(s', k, p).value) {
      var from := Origin(s, e, s', k, p);
      if !(e.Arrive? && e.k == k) {
        assert At(s, k, from);
        assert Aged(s, k, ObjAt(s, k, from).value);
      } else {
        assert p == e.p;
        assert ObjAt(s', k, p) == After(s, e, k, p);
      }
    }
  }

  lemma DeliverKeepsDated(s: State, id: ObjId, s': State)
    requires Resolved(s) && Single(s) && Tokens(s) && Dated(s) && DeliverStep(s, id, s')
    ensures Dated(s')
  {
    var e := ControllerEffectOf(s, DeliverQueued(id));
    DeliverEffect(s, id, s');
    DeliverIsSound(s, id, s');
    DeliverAges(s, id, s');
    if e.Arrive? && s.queued[0].OnUpdate? {
      assert Aged(s, e.k, ObjAt(s, e.k, e.p).value);
    }
    EffectKeepsDated(s, e, s');
  }

  /** A new info is as old as the event that made it; only an add event says when a unit was first seen. */
  lemma DeliverAges(s: State, id: ObjId, s': State)
    requires DeliverStep(s, id, s')
    ensures AgesKept(s, s')
    ensures var e := ControllerEffectOf(s, DeliverQueued(id));
            && (e.Arrive? ==> e.o in s'.store && s'.store[e.o].initialAttemptTimestamp == s'.now == s.now)
            && (e.Arrive? && s.queued[0].OnAdd? ==> e.k in s'.firstSeen && s'.firstSeen[e.k] == s.now)
            && (e.Arrive? && s.queued[0].OnUpdate? ==> s'.firstSeen == s.firstSeen && s'.renewed == s.renewed + {e.k})
            && forall k | k in s.firstSeen && !(e.Arrive? && e.k == k) ::
                 k in s'.firstSeen && s'.firstSeen[k] == s.firstSeen[k]
  {
  }

  /**
   Retry keeps seniority: whenever the loop pops a unit, no unit left in the same heap has a
   higher priority, and none of equal priority was first added earlier, however often either
   has failed and backed off, unless an update event replaced the info of the one left.
   */
  lemma PoppedIsSenior(cfg: Config, s: State, k: string, s': State, j: string)
    requires Resolved(s) && Dated(s) && LoopStep(cfg, s, PopUnit(k), s')
    requires j in s.queues[s.sched.rest[0]].active
    ensures var m := s.queues[s.sched.rest[0]].active;
            && m[j] in s.store && k in s.firstSeen && j in s.firstSeen
            && var p, r := s.store[m[k]].unit.priority, s.store[m[j]].unit.priority;
            && !Priority.Outranks(r, p)
            && (!Priority.Outranks(p, r) && j !in s.renewed ==> s.firstSeen[k] <= s.firstSeen[j])
  {
    var q := s.sched.rest[0];
    var m := s.queues[q].active;
    assert At(s, k, Active(q)) && At(s, j, Active(q));
    assert Aged(s, k, m[k]) && Aged(s, j, m[j]);
    assert Deref(s, m)[j] == s.store[m[j]];
    assert !Before(Priority.QueueLess, Deref(s, m)[j], s.store[m[k]]);
  }

  /**
   An update event sends its unit to the back of its priority: afterwards it goes before no
   other active unit of equal priority, and behind each whose info is from an earlier moment.
   */
  lemma UpdateSendsToBack(s: State, id: ObjId, s': State, j: string)
    requires Resolved(s) && Dated(s) && DeliverStep(s, id, s') && s.queued[0].OnUpdate?
    requires var q, k := s.queued[0].unit.consumerNamespace, Key(s.queued[0].unit);
             At(s, k, Active(q)) && At(s, j, Active(q)) && j != k
    ensures var q, k := s.queued[0].unit.consumerNamespace, Key(s.queued[0].unit);
            && q in s'.queues && k in s'.queues[q].active && j in s'.queues[q].active
            && s'.queues[q].active[k] in s'.store && s'.queues[q].active[j] in s'.store
            && var mine, other := s'.store[s'.queues[q].active[k]], s'.store[s'.queues[q].active[j]];
            !Priority.Outranks(mine.unit.priority, other.unit.priority) &&
            !Priority.Outranks(other.unit.priority, mine.unit.priority) ==>
              && !Priority.QueueLess(mine, other)
              && (Priority.QueueLess(other, mine) <==> other.initialAttemptTimestamp < s.now)
  {
  }
}
