/**
 Backoff in the protocol: no unit that has failed becomes active before its time, a flush takes
 exactly the units whose time has come, and the flushes of the sequential queue are such flushes.
 */
module AdmissionBackoff {
  import opened Orders
  import opened Units
  import opened QueueSpec
  import opened Admission
  import opened AdmissionPlaces
  import opened AdmissionTokens
  import opened AdmissionHistory
  import opened AdmissionTheorems
  import opened AdmissionVisits
  import opened SchedulingQueues
  import Backoff

  /** When the info of object o is done backing off. */
  function DoneTime(cfg: Config, s: State, o: ObjId): int
    requires Backoff.IsInt64(cfg.initial) && Backoff.IsInt64(cfg.max) && o in s.store
  {
    Backoff.BackoffTime(cfg.initial, cfg.max, s.store[o])
  }

  /** An active unit that has failed before has served its backoff. */
  ghost predicate Honoured(cfg: Config, s: State)
    requires Backoff.IsInt64(cfg.initial) && Backoff.IsInt64(cfg.max)
  {
    forall k, q | At(s, k, Active(q)) ::
      var o := ObjAt(s, k, Active(q)).value;
      o in s.store && (s.store[o].attempts >= 1 ==> DoneTime(cfg, s, o) <= s.now)
  }

  /** The heaps' objects stay as they are, and what becomes active is new or done. */
  ghost predicate ActiveKept(cfg: Config, s: State, e: Effect, s': State)
    requires Backoff.IsInt64(cfg.initial) && Backoff.IsInt64(cfg.max)
  {
    && s.now <= s'.now
    && (forall k, q | At(s, k, Active(q)) ::
          var o := ObjAt(s, k, Active(q)).value;
          o in s.store && o in s'.store && s'.store[o] == s.store[o])
    && (e.Arrive? ==> e.o in s'.store && s'.store[e.o].attempts == 0)
    && (e.Move? ==> !e.to.Active?)
    && (e.Promote? ==> forall k | k in e.moved && At(s, k, Backing(e.q)) ::
          var o := ObjAt(s, k, Backing(e.q)).value;
          o in s'.store && DoneTime(cfg, s', o) <= s'.now)
  }

  lemma EffectKeepsHonoured(cfg: Config, s: State, e: Effect, s': State)
    requires Backoff.IsInt64(cfg.initial) && Backoff.IsInt64(cfg.max)
    requires Honoured(cfg, s) && Effected(s, e, s') && Sound(s, e) && ActiveKept(cfg, s, e, s')
    ensures Honoured(cfg, s')
  {
    forall k, q | At(s', k, Active(q))
      ensures var o := ObjAt(s', k, Active(q)).value;
              o in s'.store && (s'.store[o].attempts >= 1 ==> DoneTime(cfg, s', o) <= s'.now)
    {
      var from := Origin(s, e, s', k, Active(q));
      assert ObjAt(s', k, Active(q)) == After(s, e, k, Active(q));
    }
  }

  /** Whatever a step does, the objects of the active heaps stay as they are. */
  lemma ActiveObjectsKept(cfg: Config, s: State, step: Step, s': State)
    requires Resolved(s) && Single(s) && Next(cfg, s, step, s')
    ensures forall k, q | At(s, k, Active(q)) ::
              var o := ObjAt(s, k, Active(q)).value;
              o in s.store && o in s'.store && s'.store[o] == s.store[o]
    ensures forall k, q | At(s, k, Backing(q)) ::
              var o := ObjAt(s, k, Backing(q)).value;
              o in s.store && o in s'.store && s'.store[o] == s.store[o]
  {
    forall k, q | At(s, k, Active(q))
      ensures var o := ObjAt(s, k, Active(q)).value;
              o in s.store && o in s'.store && s'.store[o] == s.store[o]
    {
      ActiveIsInHeap(s, k, q);
      ChangedObjectsAreInNoHeap(cfg, s, step, s', ObjAt(s, k, Active(q)).value);
    }
    forall k, q | At(s, k, Backing(q))
      ensures var o := ObjAt(s, k, Backing(q)).value;
              o in s.store && o in s'.store && s'.store[o] == s.store[o]
    {
      ActiveIsInHeap(s, k, q);
      ChangedObjectsAreInNoHeap(cfg, s, step, s', ObjAt(s, k, Backing(q)).value);
    }
  }

  lemma ActiveIsInHeap(s: State, k: string, q: string)
    ensures At(s, k, Active(q)) ==> InHeap(s.queues, ObjAt(s, k, Active(q)).value)
    ensures At(s, k, Backing(q)) ==> InHeap(s.queues, ObjAt(s, k, Backing(q)).value)
  {
    if At(s, k, Active(q)) { assert s.queues[q].active[k] in s.queues[q].active.Values; }
    if At(s, k, Backing(q)) { assert s.queues[q].backoff[k] in s.queues[q].backoff.Values; }
  }

  // ---------- a flush ----------

  /** A flush makes an entry active exactly when its backoff is over, and does not touch its info. */
  lemma FlushTakesDone(cfg: Config, s: State, q: string, moved: set<string>, s': State, k: string)
    requires Backoff.IsInt64(cfg.initial) && Backoff.IsInt64(cfg.max) && Resolved(s) && Single(s)
    requires FlushStep(cfg, s, q, moved, s') && At(s, k, Backing(q))
    ensures var o := s.queues[q].backoff[k];
            && o in s.store && s'.store == s.store
            && (Backoff.BackoffTime(cfg.initial, cfg.max, s.store[o]) <= s.now <==> ObjAt(s', k, Active(q)) == Some(o))
            && (Backoff.BackoffTime(cfg.initial, cfg.max, s.store[o]) > s.now <==> ObjAt(s', k, Backing(q)) == Some(o))
  {
    var v := DerefQueue(s, s.queues[q]);
    assert k in v.backoff && v.backoff[k] == s.store[s.queues[q].backoff[k]];
    assert k in moved <==> DoneAt(cfg.initial, cfg.max, v, k) <= s.now;
    assert !At(s, k, Active(q));
    FlushEffect(s, q, moved, s');
    assert ObjAt(s', k, Active(q)) == After(s, Promote(q, moved), k, Active(q));
    assert ObjAt(s', k, Backing(q)) == After(s, Promote(q, moved), k, Backing(q));
  }

  /** After a flush every entry left in the backoff heap is still to be served. */
  lemma FlushLeavesUndone(cfg: Config, s: State, q: string, moved: set<string>, s': State, k: string)
    requires Backoff.IsInt64(cfg.initial) && Backoff.IsInt64(cfg.max) && Resolved(s) && Single(s)
    requires FlushStep(cfg, s, q, moved, s') && At(s', k, Backing(q))
    ensures ObjAt(s', k, Backing(q)).value in s'.store
    ensures Backoff.BackoffTime(cfg.initial, cfg.max, s'.store[ObjAt(s', k, Backing(q)).value]) > s'.now
  {
    FlushEffect(s, q, moved, s');
    assert ObjAt(s', k, Backing(q)) == After(s, Promote(q, moved), k, Backing(q));
    assert At(s, k, Backing(q));
    FlushTakesDone(cfg, s, q, moved, s', k);
  }

  /**
   A finished flush of the sequential queue is a Tick to its last clock reading followed by a
   flush of the protocol.
   */
  lemma SequentialFlushIsStep(cfg: Config, s: State, q: string, moved: set<string>, clock: nat -> int, readings: nat)
    returns (s1: State, s2: State)
    requires Backoff.IsInt64(cfg.initial) && Backoff.IsInt64(cfg.max) && Resolved(s) && q in s.queues
    requires FlushDone(cfg.initial, cfg.max, DerefQueue(s, s.queues[q]), moved, clock, readings)
    requires readings > 0 ==> Reading(clock, readings - 1) >= s.now
    ensures UserStep(cfg, s, Tick(s1.now), s1) && ControllerStep(cfg, s1, FlushQueue(q, moved), s2)
    ensures readings > 0 ==> s2.now == Reading(clock, readings - 1)
    ensures DerefQueue(s2, s2.queues[q]) == Flushed(DerefQueue(s, s.queues[q]), moved)
    ensures s2 == s.(now := s2.now, queues := s.queues[q := s2.queues[q]])
  {
    s1 := s.(now := if readings == 0 then s.now else Reading(clock, readings - 1));
    SameKeys(s, q);
    assert DerefQueue(s1, s1.queues[q]) == DerefQueue(s, s.queues[q]);
    FlushMovesExactly(cfg.initial, cfg.max, DerefQueue(s, s.queues[q]), moved, clock, readings);
    s2 := s1.(queues := s1.queues[q := Flushed(s1.queues[q], moved)]);
    FlushedView(s1, s1.queues[q], moved);
  }

  lemma FlushedView(s: State, q: QueueState<ObjId>, moved: set<string>)
    requires moved <= q.backoff.Keys && Deref(s, q.backoff).Keys == q.backoff.Keys
    ensures DerefQueue(s, Flushed(q, moved)) == Flushed(DerefQueue(s, q), moved)
  {
    DerefJoins(s, q.active, q.backoff, moved);
    assert Deref(s, q.backoff - moved) == Deref(s, q.backoff) - moved;
  }

  lemma DerefJoins(s: State, a: map<string, ObjId>, b: map<string, ObjId>, moved: set<string>)
    requires moved <= b.Keys && Deref(s, b).Keys == b.Keys
    ensures Deref(s, a + (map k | k in moved :: b[k])) == Deref(s, a) + (map k | k in moved :: Deref(s, b)[k])
  {
    var m := map k | k in moved :: b[k];
    forall k | k in moved ensures k in b && m[k] in s.store && Deref(s, b)[k] == s.store[m[k]] {
      assert k in b.Keys && k in Deref(s, b);
    }
    DerefPart(s, m, map k | k in moved :: Deref(s, b)[k]);
    DerefSum(s, a, m);
  }

  lemma DerefPart(s: State, m: map<string, ObjId>, infos: map<string, QueueUnitInfo>)
    requires m.Keys == infos.Keys && forall k | k in m :: m[k] in s.store && infos[k] == s.store[m[k]]
    ensures Deref(s, m) == infos
  {
  }

  lemma DerefSum(s: State, a: map<string, ObjId>, m: map<string, ObjId>)
    requires forall k | k in m :: m[k] in s.store
    ensures Deref(s, a + m) == Deref(s, a) + Deref(s, m)
  {
  }

  // ---------- backoff is honoured in every run ----------

  lemma DeliverIsNew(cfg: Config, s: State, id: ObjId, s': State)
    requires Resolved(s) && DeliverStep(s, id, s')
    ensures var e := ControllerEffectOf(s, DeliverQueued(id));
            && !e.Move? && !e.Promote? && s'.now == s.now
            && (e.Arrive? ==> e.o in s'.store && s'.store[e.o].attempts == 0)
  {
  }

  lemma ControllerKeepsHonoured(cfg: Config, s: State, op: ControllerOp, s': State)
    requires ConfigOk(cfg) && Placed(cfg, s) && Honoured(cfg, s) && ControllerStep(cfg, s, op, s')
    ensures Honoured(cfg, s')
  {
    ActiveObjectsKept(cfg, s, ByController(op), s');
    if op.DeliverQueued? {
      DeliverEffect(s, op.id, s');
      DeliverIsSound(s, op.id, s');
      DeliverIsNew(cfg, s, op.id, s');
      EffectKeepsHonoured(cfg, s, ControllerEffectOf(s, op), s');
    } else if op.DeliverDequeued? {
      HandledFrame(cfg, s, s');
      KeptEffect(s, s');
      EffectKeepsHonoured(cfg, s, Stay, s');
    } else {
      FlushKeepsHonoured(cfg, s, op.q, op.moved, s');
    }
  }

  lemma FlushKeepsHonoured(cfg: Config, s: State, q: string, moved: set<string>, s': State)
    requires ConfigOk(cfg) && Placed(cfg, s) && Honoured(cfg, s) && FlushStep(cfg, s, q, moved, s')
    ensures Honoured(cfg, s')
  {
    ActiveObjectsKept(cfg, s, ByController(FlushQueue(q, moved)), s');
    FlushEffect(s, q, moved, s');
    forall k | k in moved && At(s, k, Backing(q))
      ensures var o := ObjAt(s, k, Backing(q)).value; o in s'.store && DoneTime(cfg, s', o) <= s'.now
    {
      FlushTakesDone(cfg, s, q, moved, s', k);
      assert ObjAt(s', k, Active(q)) == After(s, Promote(q, moved), k, Active(q));
    }
    EffectKeepsHonoured(cfg, s, Promote(q, moved), s');
  }

  lemma LoopKeepsHonoured(cfg: Config, s: State, op: LoopOp, s': State)
    requires ConfigOk(cfg) && Placed(cfg, s) && Honoured(cfg, s) && LoopStep(cfg, s, op, s')
    ensures Honoured(cfg, s')
  {
    ActiveObjectsKept(cfg, s, ByLoop(op), s');
    LoopEffect(cfg, s, op, s');
    LoopIsSound(cfg, s, op, s');
    LoopFrame(cfg, s, op, s');
    EffectKeepsHonoured(cfg, s, LoopEffectOf(s, op), s');
  }

  lemma FlightKeepsHonoured(cfg: Config, s: State, g: nat, op: FlightOp, s': State)
    requires ConfigOk(cfg) && Placed(cfg, s) && Honoured(cfg, s) && FlightStep(s, g, op, s')
    ensures Honoured(cfg, s')
  {
    ActiveObjectsKept(cfg, s, ByFlight(g, op), s');
    FlightEffect(s, g, op, s');
    FlightIsSound(s, g, op, s');
    FlightClock(s, g, op, s');
    EffectKeepsHonoured(cfg, s, FlightEffectOf(s, g, op), s');
  }

  lemma FlightClock(s: State, g: nat, op: FlightOp, s': State)
    requires FlightStep(s, g, op, s')
    ensures s'.now == s.now
  {
  }

  lemma UserKeepsHonoured(cfg: Config, s: State, op: UserOp, s': State)
    requires ConfigOk(cfg) && Placed(cfg, s) && Honoured(cfg, s) && UserStep(cfg, s, op, s')
    ensures Honoured(cfg, s')
  {
    ActiveObjectsKept(cfg, s, ByUser(op), s');
    KeptEffect(s, s');
    EffectKeepsHonoured(cfg, s, Stay, s');
  }

  lemma NextKeepsHonoured(cfg: Config, s: State, step: Step, s': State)
    requires ConfigOk(cfg) && Reachable(cfg, s) && Honoured(cfg, s) && Next(cfg, s, step, s')
    ensures Honoured(cfg, s')
  {
    ReachableInv(cfg, s);
    match step
    case ByUser(op) => UserKeepsHonoured(cfg, s, op, s');
    case ByController(op) => ControllerKeepsHonoured(cfg, s, op, s');
    case ByLoop(op) => LoopKeepsHonoured(cfg, s, op, s');
    case ByFlight(g, op) => FlightKeepsHonoured(cfg, s, g, op, s');
  }

  /**
   In every state of every run, a unit that has failed at least once is active only after the
   backoff of its last failure is over.
   */
  lemma BackoffIsHonoured(cfg: Config, s: State, k: string, q: string)
    requires ConfigOk(cfg) && Reachable(cfg, s) && At(s, k, Active(q))
    ensures ObjAt(s, k, Active(q)).value in s.store
    ensures var info := s.store[ObjAt(s, k, Active(q)).value];
            info.attempts >= 1 ==> Backoff.BackoffTime(cfg.initial, cfg.max, info) <= s.now
  {
    var states, steps :| IsRun(cfg, states, steps) && states[|steps|] == s;
    assert forall j, p :: !At(states[0], j, p);
    for i := 0 to |steps|
      invariant Honoured(cfg, states[i])
    {
      RunStatesAreReachable(cfg, states, steps, i);
      NextKeepsHonoured(cfg, states[i], steps[i], states[i + 1]);
    }
    assert Honoured(cfg, s);
  }

  // ---------- an update event starts the backoff afresh ----------

  /** An update event for a unit that is backing off gives it the event's unit and a backoff from now. */
  lemma UpdateStartsAfresh(cfg: Config, s: State, id: ObjId, s': State)
    requires ConfigOk(cfg) && Placed(cfg, s) && DeliverStep(s, id, s') && s.queued[0].OnUpdate?
    requires At(s, Key(s.queued[0].unit), Backing(s.queued[0].unit.consumerNamespace))
    ensures ObjAt(s', Key(s.queued[0].unit), Backing(s.queued[0].unit.consumerNamespace)) == Some(id)
    ensures id in s'.store && s'.store[id].unit == s.queued[0].unit
    ensures Backoff.BackoffTime(cfg.initial, cfg.max, s'.store[id]) == s.now + cfg.initial
  {
    var k, q := Key(s.queued[0].unit), s.queued[0].unit.consumerNamespace;
    assert !At(s, k, Active(q));
  }

  /**
   And while it keeps that entry, a flush makes it active exactly when the initial duration has
   passed since the event.
   */
  lemma UpdateThenFlush(cfg: Config, states: seq<State>, steps: seq<Step>, i: nat, j: nat, id: ObjId,
                        q: string, moved: set<string>)
    requires ConfigOk(cfg) && IsRun(cfg, states, steps) && i < j < |steps|
    requires steps[i] == ByController(DeliverQueued(id)) && DeliverStep(states[i], id, states[i + 1])
    requires states[i].queued[0].OnUpdate? && q == states[i].queued[0].unit.consumerNamespace
    requires At(states[i], Key(states[i].queued[0].unit), Backing(q))
    requires forall n | i < n <= j :: ObjAt(states[n], Key(states[i].queued[0].unit), Backing(q)) == Some(id)
    requires steps[j] == ByController(FlushQueue(q, moved)) && FlushStep(cfg, states[j], q, moved, states[j + 1])
    ensures var u := states[i].queued[0].unit;
            && (ObjAt(states[j + 1], Key(u), Active(q)) == Some(id) <==> states[j].now >= states[i].now + cfg.initial)
            && (ObjAt(states[j + 1], Key(u), Backing(q)) == Some(id) <==> states[j].now < states[i].now + cfg.initial)
            && id in states[j + 1].store && states[j + 1].store[id].unit == u
  {
    var k := Key(states[i].queued[0].unit);
    RunKeepsPlaced(cfg, states, steps, i);
    UpdateStartsAfresh(cfg, states[i], id, states[i + 1]);
    for n := i + 1 to j
      invariant id in states[n].store && states[n].store[id] == states[i + 1].store[id]
    {
      RunKeepsPlaced(cfg, states, steps, n);
      assert At(states[n], k, Backing(q));
      ActiveObjectsKept(cfg, states[n], steps[n], states[n + 1]);
    }
    RunKeepsPlaced(cfg, states, steps, j);
    FlushTakesDone(cfg, states[j], q, moved, states[j + 1], k);
  }

  lemma RunKeepsPlaced(cfg: Config, states: seq<State>, steps: seq<Step>, n: nat)
    requires ConfigOk(cfg) && IsRun(cfg, states, steps) && n < |states|
    ensures Placed(cfg, states[n])
    ensures n < |steps| ==> Next(cfg, states[n], steps[n], states[n + 1])
  {
    RunKeepsInv(cfg, states, steps, n);
  }
}
