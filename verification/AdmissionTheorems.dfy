/** The admission protocol's guarantees, over every run. */
module AdmissionTheorems {
  import opened Units
  import opened QueueSpec
  import opened QuotaLedger
  import opened Admission
  import opened AdmissionPlaces
  import opened AdmissionTokens
  import opened AdmissionLedger
  import opened AdmissionQuota
  import opened AdmissionHistory
  import opened AdmissionProgress
  import HeapOrder
  import Priority

  ghost predicate Inv(cfg: Config, s: State)
  {
    && Placed(cfg, s) && Accounted(cfg, s) && Budgeted(cfg, s, Inherited(cfg, s))
    && Dated(s) && Served(cfg, s) && Gone(cfg, s)
  }

  // ---------- the invariant ----------

  lemma InitPlaced(cfg: Config, s: State)
    requires ConfigOk(cfg) && Init(cfg, s)
    ensures Placed(cfg, s)
  {
  }

  lemma InitSide(cfg: Config, s: State)
    requires ConfigOk(cfg) && Init(cfg, s)
    ensures DequeuedSide(cfg, s.api, s.dequeued, s.adopted) && forall k :: !DeletePending(s.dequeued, k)
  {
    forall k | k in cfg.boot ensures AddPending(s.dequeued, k) {
      var i :| 0 <= i < |s.dequeued| && s.dequeued[i] == OnAdd(cfg.boot[k]);
      assert s.dequeued[i].OnAdd?;
    }
  }

  lemma InitAccounted(cfg: Config, s: State)
    requires ConfigOk(cfg) && Init(cfg, s)
    ensures Accounted(cfg, s)
  {
    InitSide(cfg, s);
    forall k ensures !Due(cfg, s, k) {
      assert forall g :: !ReservingAt(s, k, g);
    }
    assert Claims(cfg, {}) == map[];
  }

  lemma InitRest(cfg: Config, s: State)
    requires ConfigOk(cfg) && Init(cfg, s)
    ensures Budgeted(cfg, s, Inherited(cfg, s)) && Dated(s) && Served(cfg, s) && Gone(cfg, s)
  {
  }

  lemma UserKeepsInv(cfg: Config, s: State, op: UserOp, s': State)
    requires ConfigOk(cfg) && Inv(cfg, s) && UserStep(cfg, s, op, s')
    ensures Inv(cfg, s')
  {
    UserKeepsPlaced(cfg, s, op, s');
    UserKeepsAccounted(cfg, s, op, s');
    UserKeepsServed(cfg, s, op, s');
    UserKeepsGone(cfg, s, op, s');
    KeptEffect(s, s');
    UserKeepsRest(s, op, cfg, s');
    OthersKeepBudgeted(cfg, s, Inherited(cfg, s), s', Inherited(cfg, s'));
    EffectKeepsDated(s, Stay, s');
  }

  lemma UserKeepsRest(s: State, op: UserOp, cfg: Config, s': State)
    requires UserStep(cfg, s, op, s')
    ensures HandKept(s, s') && AgesKept(s, s') && s'.firstSeen == s.firstSeen
  {
  }

  lemma ControllerKeepsInv(cfg: Config, s: State, op: ControllerOp, s': State)
    requires ConfigOk(cfg) && Inv(cfg, s) && ControllerStep(cfg, s, op, s')
    ensures Inv(cfg, s')
  {
    ControllerKeepsPlaced(cfg, s, op, s');
    ControllerKeepsAccounted(cfg, s, op, s');
    ControllerKeepsServed(cfg, s, op, s');
    ControllerKeepsGone(cfg, s, op, s');
    ControllerKeepsHand(cfg, s, op, s');
    OthersKeepBudgeted(cfg, s, Inherited(cfg, s), s', Inherited(cfg, s'));
    ControllerKeepsDated(cfg, s, op, s');
  }

  lemma ControllerKeepsDated(cfg: Config, s: State, op: ControllerOp, s': State)
    requires Placed(cfg, s) && Dated(s) && ControllerStep(cfg, s, op, s')
    ensures Dated(s')
  {
    match op
    case DeliverQueued(id) => DeliverKeepsDated(s, id, s');
    case DeliverDequeued =>
      HandledFrame(cfg, s, s');
      KeptEffect(s, s');
      EffectKeepsDated(s, Stay, s');
    case FlushQueue(q, moved) =>
      assert s' == s.(queues := s.queues[q := Flushed(s.queues[q], moved)]);
      FlushEffect(s, q, moved, s');
      EffectKeepsDated(s, Promote(q, moved), s');
  }

  lemma LoopKeepsInv(cfg: Config, s: State, op: LoopOp, s': State)
    requires ConfigOk(cfg) && Inv(cfg, s) && LoopStep(cfg, s, op, s')
    ensures Inv(cfg, s')
  {
    LoopKeepsPlaced(cfg, s, op, s');
    LoopKeepsAccounted(cfg, s, op, s');
    LoopKeepsServed(cfg, s, op, s');
    LoopKeepsGone(cfg, s, op, s');
    LoopKeepsBudgeted(cfg, s, Inherited(cfg, s), op, s');
    LoopKeepsInherited(cfg, s, op, s');
    LoopKeepsDated(cfg, s, op, s');
  }

  lemma HandIsNew(cfg: Config, s: State)
    requires Resolved(s) && Gone(cfg, s) && HandObj(s).Some?
    ensures HandName(s) !in cfg.boot
  {
    assert At(s, HandName(s), Hand);
    assert !Past(cfg, s, HandName(s));
  }

  lemma ReserveKeepsInherited(cfg: Config, s: State, g: nat, s': State)
    requires Placed(cfg, s) && Accounted(cfg, s) && Gone(cfg, s)
    requires s.sched.Filtering? && s.sched.obj in s.store && LoopStep(cfg, s, ReserveUnit(g), s')
    ensures Inherited(cfg, s') == Inherited(cfg, s)
  {
    ReserveNeverRefused(cfg, s);
    ReserveFrame(cfg, s, g, s');
    HandIsNew(cfg, s);
  }

  /** The loop records no unit from before the start. */
  lemma LoopKeepsInherited(cfg: Config, s: State, op: LoopOp, s': State)
    requires Placed(cfg, s) && Accounted(cfg, s) && Gone(cfg, s) && LoopStep(cfg, s, op, s')
    ensures Inherited(cfg, s') == Inherited(cfg, s)
  {
    if op.ReserveUnit? {
      ReserveKeepsInherited(cfg, s, op.g, s');
    } else {
      LoopFrame(cfg, s, op, s');
    }
  }

  lemma LoopKeepsDated(cfg: Config, s: State, op: LoopOp, s': State)
    requires Placed(cfg, s) && Dated(s) && LoopStep(cfg, s, op, s')
    ensures Dated(s')
  {
    LoopFrame(cfg, s, op, s');
    LoopWorks(cfg, s, op, s');
    LoopEffect(cfg, s, op, s');
    LoopIsSound(cfg, s, op, s');
    EffectKeepsDated(s, LoopEffectOf(s, op), s');
  }

  lemma FlightKeepsInv(cfg: Config, s: State, g: nat, op: FlightOp, s': State)
    requires ConfigOk(cfg) && Inv(cfg, s) && FlightStep(s, g, op, s')
    ensures Inv(cfg, s')
  {
    FlightKeepsPlaced(cfg, s, g, op, s');
    FlightKeepsAccounted(cfg, s, g, op, s');
    FlightKeepsServed(cfg, s, g, op, s');
    FlightKeepsGone(cfg, s, g, op, s');
    FlightKeepsHand(s, g, op, s');
    OthersKeepBudgeted(cfg, s, Inherited(cfg, s), s', Inherited(cfg, s'));
    FlightKeepsDated(cfg, s, g, op, s');
  }

  lemma FlightKeepsDated(cfg: Config, s: State, g: nat, op: FlightOp, s': State)
    requires Placed(cfg, s) && Dated(s) && FlightStep(s, g, op, s')
    ensures Dated(s')
  {
    if op == DequeueOk { DequeueFrame(s, g, s'); } else { FlightFrame(s, g, op, s'); }
    FlightWorks(s, g, op, s');
    FlightEffect(s, g, op, s');
    FlightIsSound(s, g, op, s');
    EffectKeepsDated(s, FlightEffectOf(s, g, op), s');
  }

  /** Every step keeps the invariant. */
  lemma NextKeepsInv(cfg: Config, s: State, step: Step, s': State)
    requires ConfigOk(cfg) && Inv(cfg, s) && Next(cfg, s, step, s')
    ensures Inv(cfg, s')
  {
    match step
    case ByUser(op) => UserKeepsInv(cfg, s, op, s');
    case ByController(op) => ControllerKeepsInv(cfg, s, op, s');
    case ByLoop(op) => LoopKeepsInv(cfg, s, op, s');
    case ByFlight(g, op) => FlightKeepsInv(cfg, s, g, op, s');
  }

  /** The invariant holds in every state of every run. */
  lemma {:induction false} RunKeepsInv(cfg: Config, states: seq<State>, steps: seq<Step>, i: nat)
    requires ConfigOk(cfg) && IsRun(cfg, states, steps) && i < |states|
    ensures Inv(cfg, states[i])
  {
    if i == 0 {
      InitPlaced(cfg, states[0]);
      InitAccounted(cfg, states[0]);
      InitRest(cfg, states[0]);
    } else {
      RunKeepsInv(cfg, states, steps, i - 1);
      NextKeepsInv(cfg, states[i - 1], steps[i - 1], states[i]);
    }
  }

  lemma ReachableInv(cfg: Config, s: State)
    requires ConfigOk(cfg) && Reachable(cfg, s)
    ensures Inv(cfg, s)
  {
    var states, steps :| IsRun(cfg, states, steps) && states[|steps|] == s;
    RunKeepsInv(cfg, states, steps, |steps|);
  }

  // ---------- what it gives ----------

  /**
   Quota safety. In every state of every run no limited total exceeds its limit by more than
   the recorded units that were Dequeued before the start; with none of those recorded, no
   limit is exceeded.
   */
  lemma QuotaSafety(cfg: Config, states: seq<State>, steps: seq<Step>, i: nat, ns: string, r: string)
    requires ConfigOk(cfg) && IsRun(cfg, states, steps) && i < |states|
    requires Limited(cfg.quotas, ns, r)
    ensures var s := states[i];
            && Reserved(s.ledger, ns, r) <=
               LimitOf(cfg.quotas, ns, r) + Total(Claims(cfg, s.ledger.quRecord * cfg.boot.Keys), ns, r)
            && (s.ledger.quRecord !! cfg.boot.Keys ==> Reserved(s.ledger, ns, r) <= LimitOf(cfg.quotas, ns, r))
  {
    RunKeepsInv(cfg, states, steps, i);
    var base := Inherited(cfg, states[i]);
    assert Net(cfg, states[i], base, ns, r) <= LimitOf(cfg.quotas, ns, r);
    if base == {} {
      assert Claims(cfg, base) == map[];
    }
  }

  /**
   No leaked or doubled reservation. A key is recorded exactly while a goroutine holds its
   reservation, its unit is Dequeued, or the deletion of the Dequeued unit is still to be
   handled; the totals are exactly those of the recorded units.
   */
  lemma NoLeakNoDouble(cfg: Config, states: seq<State>, steps: seq<Step>, i: nat, k: string)
    requires ConfigOk(cfg) && IsRun(cfg, states, steps) && i < |states|
    ensures k in states[i].ledger.quRecord <==>
            || Reserving(states[i], k)
            || (Claimed(states[i].api, states[i].dequeued, k) && !Unreported(cfg, states[i], k))
    ensures !(Reserving(states[i], k) && Claimed(states[i].api, states[i].dequeued, k))
    ensures forall ns, r :: Reserved(states[i].ledger, ns, r) == Total(Claims(cfg, states[i].ledger.quRecord), ns, r)
  {
    RunKeepsInv(cfg, states, steps, i);
    var s := states[i];
    assert k in s.ledger.quRecord <==> Due(cfg, s, k);
    if g :| ReservingAt(s, k, g) {
      RecordedMeansFlying(cfg, s, k, InFlight(g));
    }
  }

  /** When nothing is in flight or unhandled, the ledger is the sum of the Dequeued units. */
  lemma QuiescentLedger(cfg: Config, states: seq<State>, steps: seq<Step>, i: nat)
    requires ConfigOk(cfg) && IsRun(cfg, states, steps) && i < |states|
    requires states[i].flights == map[] && states[i].dequeued == []
    ensures states[i].ledger.quRecord == set k | k in states[i].api && states[i].api[k].phase == Dequeued
  {
    var s := states[i];
    forall k ensures k in s.ledger.quRecord <==> k in s.api && s.api[k].phase == Dequeued {
      NoLeakNoDouble(cfg, states, steps, i, k);
      RunKeepsInv(cfg, states, steps, i);
      assert forall g :: !ReservingAt(s, k, g);
      assert Unreported(cfg, s, k) ==> AddPending(s.dequeued, k);
    }
  }

  /** The add event of a unit this scheduler dequeued finds it recorded and changes nothing. */
  lemma AddEventIsAnEcho(cfg: Config, states: seq<State>, steps: seq<Step>, i: nat)
    requires ConfigOk(cfg) && IsRun(cfg, states, steps) && i < |steps|
    requires steps[i] == ByController(DeliverDequeued) && |states[i].dequeued| > 0 && states[i].dequeued[0].OnAdd?
    requires Key(states[i].dequeued[0].unit) !in cfg.boot
    ensures Key(states[i].dequeued[0].unit) in states[i].ledger.quRecord
    ensures states[i + 1] == states[i].(dequeued := states[i].dequeued[1..])
  {
    var s, k := states[i], Key(states[i].dequeued[0].unit);
    RunKeepsInv(cfg, states, steps, i);
    assert Next(cfg, s, steps[i], states[i + 1]);
    assert Claimed(s.api, s.dequeued, Key(s.dequeued[0].unit));
    assert Due(cfg, s, k);
    EchoChangesNothing(cfg, s, states[i + 1]);
  }

  /** The loop's Reserve always succeeds: its unit is never recorded already. */
  lemma ReserveAlwaysSucceeds(cfg: Config, states: seq<State>, steps: seq<Step>, i: nat, g: nat)
    requires ConfigOk(cfg) && IsRun(cfg, states, steps) && i < |steps|
    requires steps[i] == ByLoop(ReserveUnit(g))
    ensures g in states[i + 1].flights && states[i + 1].flights[g].stage == Dequeuing
    ensures states[i + 1].ledger.quRecord == states[i].ledger.quRecord + {HandName(states[i])}
    ensures HandName(states[i]) !in states[i].ledger.quRecord
  {
    var s := states[i];
    RunKeepsInv(cfg, states, steps, i);
    assert Next(cfg, s, steps[i], states[i + 1]);
    ReserveNeverRefused(cfg, s);
  }

  /**
   Single location. In every state of every run each key is in at most one heap, hand or
   flight, and so is each info object.
   */
  lemma SingleLocation(cfg: Config, states: seq<State>, steps: seq<Step>, i: nat,
                       k1: string, p1: Place, k2: string, p2: Place)
    requires ConfigOk(cfg) && IsRun(cfg, states, steps) && i < |states|
    requires At(states[i], k1, p1) && At(states[i], k2, p2)
    ensures k1 == k2 ==> p1 == p2
    ensures ObjAt(states[i], k1, p1) == ObjAt(states[i], k2, p2) ==> k1 == k2 && p1 == p2
  {
    RunKeepsInv(cfg, states, steps, i);
  }

  /**
   No unit is lost, except one way. An enqueued unit whose namespace has a queue is somewhere,
   or its add event is still to be handled, if and only if ErrorFunc has never failed to look
   it up; after such a failure it is out of the scheduler's reach for good.
   */
  lemma NoUnitLostIff(cfg: Config, states: seq<State>, steps: seq<Step>, i: nat, k: string)
    requires ConfigOk(cfg) && IsRun(cfg, states, steps) && i < |states|
    requires k in states[i].api && states[i].api[k].phase != Dequeued && ClaimFor(cfg, k).namespace in cfg.queues
    ensures Somewhere(states[i], k) || AddPending(states[i].queued, k) <==> k !in states[i].dropped
  {
    RunKeepsInv(cfg, states, steps, i);
    if k !in states[i].dropped {
      assert Owed(cfg, states[i], k);
    }
  }

  /** Mutation never breaks heap order, in any run and for any layout of any heap. */
  lemma MutationKeepsHeapOrder(cfg: Config, states: seq<State>, steps: seq<Step>, i: nat, q: string,
                               m: map<string, ObjId>, layout: seq<string>, less: (QueueUnitInfo, QueueUnitInfo) -> bool)
    requires ConfigOk(cfg) && IsRun(cfg, states, steps) && i < |steps|
    requires q in states[i].queues && (m == states[i].queues[q].active || m == states[i].queues[q].backoff)
    requires forall j | 0 <= j < |layout| :: layout[j] in m
    ensures forall j | 0 <= j < |layout| :: m[layout[j]] in states[i].store && m[layout[j]] in states[i + 1].store
    ensures LaidOut(states[i + 1], m, layout) == LaidOut(states[i], m, layout)
    ensures HeapOrder.Ordered(less, LaidOut(states[i], m, layout), |layout|) ==>
              HeapOrder.Ordered(less, LaidOut(states[i + 1], m, layout), |layout|)
  {
    RunKeepsInv(cfg, states, steps, i);
    LayoutStaysOrdered(cfg, states[i], steps[i], states[i + 1], q, m, layout, less);
  }

  /**
   Retry keeps seniority, in any run: a popped unit has at least the priority of any unit left
   in its heap, and among equals was first added no later, unless an update event replaced
   the info of the one left.
   */
  lemma RetryKeepsSeniority(cfg: Config, states: seq<State>, steps: seq<Step>, i: nat, k: string, j: string)
    requires ConfigOk(cfg) && IsRun(cfg, states, steps) && i < |steps| && steps[i] == ByLoop(PopUnit(k))
    requires LoopStep(cfg, states[i], PopUnit(k), states[i + 1]) &&
             j in states[i].queues[states[i].sched.rest[0]].active
    ensures var s := states[i];
            var m := s.queues[s.sched.rest[0]].active;
            && m[j] in s.store && k in s.firstSeen && j in s.firstSeen
            && var p, r := s.store[m[k]].unit.priority, s.store[m[j]].unit.priority;
            && !Priority.Outranks(r, p)
            && (!Priority.Outranks(p, r) && j !in s.renewed ==> s.firstSeen[k] <= s.firstSeen[j])
  {
    RunKeepsInv(cfg, states, steps, i);
    PoppedIsSenior(cfg, states[i], k, states[i + 1], j);
  }

  /**
   And an update event loses it, in any run: the updated unit goes before no other active
   unit of equal priority any more.
   */
  lemma UpdateLosesSeniority(cfg: Config, states: seq<State>, steps: seq<Step>, i: nat, id: ObjId, j: string)
    requires ConfigOk(cfg) && IsRun(cfg, states, steps) && i < |steps| && steps[i] == ByController(DeliverQueued(id))
    requires DeliverStep(states[i], id, states[i + 1]) && states[i].queued[0].OnUpdate?
    requires var q, k := states[i].queued[0].unit.consumerNamespace, Key(states[i].queued[0].unit);
             At(states[i], k, Active(q)) && At(states[i], j, Active(q)) && j != k
    ensures var q, k := states[i].queued[0].unit.consumerNamespace, Key(states[i].queued[0].unit);
            var s := states[i + 1];
            && q in s.queues && k in s.queues[q].active && j in s.queues[q].active
            && s.queues[q].active[k] in s.store && s.queues[q].active[j] in s.store
            && var mine, other := s.store[s.queues[q].active[k]], s.store[s.queues[q].active[j]];
            !Priority.Outranks(mine.unit.priority, other.unit.priority) &&
            !Priority.Outranks(other.unit.priority, mine.unit.priority) ==>
              && !Priority.QueueLess(mine, other)
              && (Priority.QueueLess(other, mine) <==> other.initialAttemptTimestamp < states[i].now)
  {
    RunKeepsInv(cfg, states, steps, i);
    UpdateSendsToBack(states[i], id, states[i + 1], j);
  }
}
