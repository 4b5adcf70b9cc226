/**
 How a unit gets into another namespace's queue, where its own events do not find it: the
 goroutine that returns it reads a loop variable that has moved on.
 */
module AdmissionStray {
  import opened Units
  import opened QuotaLedger
  import opened Admission
  import opened AdmissionPlaces
  import opened AdmissionTokens
  import opened AdmissionLedger
  import opened AdmissionQuota
  import opened AdmissionProgress
  import opened AdmissionTheorems
  import opened AdmissionVisits
  import opened AdmissionRestart
  import opened AdmissionSources
  import opened AdmissionOvershoot
  import opened AdmissionLosses
  import opened Schedulers
  import QueueSpec
  import Priority

  /** The queue that k's events go to. */
  function Home(cfg: Config, k: string): string
  {
    ClaimFor(cfg, k).namespace
  }

  /** p holds k for another namespace's queue. */
  predicate Abroad(cfg: Config, s: State, k: string, p: Place)
  {
    At(s, k, p) &&
    match p
    case Active(q) => q != Home(cfg, k)
    case Backing(q) => q != Home(cfg, k)
    case Hand => s.sched.q != Home(cfg, k)
    case InFlight(_) => false
  }

  ghost predicate Stray(cfg: Config, s: State, k: string)
  {
    exists p :: Abroad(cfg, s, k, p)
  }

  /** The goroutine of k returns it to another namespace's queue. */
  predicate GoesAstray(cfg: Config, s: State, step: Step, k: string)
  {
    step.ByFlight? && step.op.FlightReenter? && FlightName(s, step.g) == k && step.op.q != Home(cfg, k)
  }

  /** An effect that brings k from a place at home to a place at home keeps it there. */
  lemma EffectKeepsHome(cfg: Config, s: State, e: Effect, s': State, k: string)
    requires Effected(s, e, s') && Sound(s, e) && !Stray(cfg, s, k)
    requires e.Arrive? && e.k == k ==> e.p == Active(Home(cfg, k)) || e.p == Backing(Home(cfg, k))
    requires e.Move? && e.k == k ==> At(s', k, e.to) && !Abroad(cfg, s', k, e.to)
    requires HandObj(s).Some? && HandObj(s').Some? ==> s'.sched.q == s.sched.q
    ensures !Stray(cfg, s', k)
  {
    forall p ensures !Abroad(cfg, s', k, p) {
      if At(s', k, p) {
        var from := Origin(s, e, s', k, p);
        assert !Abroad(cfg, s, k, from);
      }
    }
  }

  lemma ControllerKeepsHome(cfg: Config, s: State, op: ControllerOp, s': State, k: string)
    requires Placed(cfg, s) && ControllerStep(cfg, s, op, s') && !Stray(cfg, s, k)
    ensures !Stray(cfg, s', k)
  {
    if op.DeliverQueued? {
      DeliverEffect(s, op.id, s');
      DeliverIsSound(s, op.id, s');
      DeliverFrame(s, op.id, s');
      assert OkUnit(cfg, s.used, s.queued[0].unit);
      EffectKeepsHome(cfg, s, ControllerEffectOf(s, op), s', k);
    } else if op.DeliverDequeued? {
      HandledFrame(cfg, s, s');
      KeptEffect(s, s');
      EffectKeepsHome(cfg, s, Stay, s', k);
    } else {
      FlushEffect(s, op.q, op.moved, s');
      EffectKeepsHome(cfg, s, Promote(op.q, op.moved), s', k);
    }
  }

  /** The unit in hand belongs to the queue it was popped from until it leaves the hand. */
  lemma LoopKeepsRoute(cfg: Config, s: State, op: LoopOp, s': State)
    requires LoopStep(cfg, s, op, s')
    ensures HandObj(s').Some? && HandObj(s).Some? ==> s'.sched.q == s.sched.q
    ensures op.PopUnit? ==> s'.sched.Filtering? || s'.sched.Failing?
    ensures op.PopUnit? ==> s'.sched.q == s.sched.rest[0] && At(s, op.k, Active(s.sched.rest[0]))
  {
  }

  lemma LoopKeepsHome(cfg: Config, s: State, op: LoopOp, s': State, k: string)
    requires Placed(cfg, s) && LoopStep(cfg, s, op, s') && !Stray(cfg, s, k)
    ensures !Stray(cfg, s', k)
  {
    var e := LoopEffectOf(s, op);
    LoopEffect(cfg, s, op, s');
    LoopIsSound(cfg, s, op, s');
    LoopKeepsRoute(cfg, s, op, s');
    if e.Move? && e.k == k {
      assert !Abroad(cfg, s, k, e.from);
      assert ObjAt(s', k, e.to) == After(s, e, k, e.to);
    }
    EffectKeepsHome(cfg, s, e, s', k);
  }

  /** A goroutine that returns its unit to q puts it into q's backoff heap. */
  lemma ReenterLands(s: State, g: nat, q: string, s': State)
    requires Resolved(s) && Single(s) && q in s.queues && FlightStep(s, g, FlightReenter(q), s')
    ensures At(s', FlightName(s, g), Backing(q))
  {
    var e, k := FlightEffectOf(s, g, FlightReenter(q)), FlightName(s, g);
    FlightEffect(s, g, FlightReenter(q), s');
    assert At(s, k, InFlight(g)) && ObjAt(s', k, Backing(q)) == After(s, e, k, Backing(q));
  }

  lemma FlightKeepsHome(cfg: Config, s: State, g: nat, op: FlightOp, s': State, k: string)
    requires Placed(cfg, s) && Routed(cfg, s) && FlightStep(s, g, op, s') && !Stray(cfg, s, k)
    requires !GoesAstray(cfg, s, ByFlight(g, op), k)
    ensures !Stray(cfg, s', k)
  {
    var e := FlightEffectOf(s, g, op);
    if op.FlightReenter? { ReenterLands(s, g, op.q, s'); }
    FlightEffect(s, g, op, s');
    FlightIsSound(s, g, op, s');
    FlightSched(s, g, op, s');
    EffectKeepsHome(cfg, s, e, s', k);
  }

  lemma FlightSched(s: State, g: nat, op: FlightOp, s': State)
    requires FlightStep(s, g, op, s')
    ensures s'.sched == s.sched
  {
  }

  /** A unit goes astray exactly when its goroutine returns it to another namespace's queue. */
  lemma StrayBeginsIff(cfg: Config, s: State, step: Step, s': State, k: string)
    requires ConfigOk(cfg) && Reachable(cfg, s) && Next(cfg, s, step, s') && !Stray(cfg, s, k)
    ensures Stray(cfg, s', k) <==> GoesAstray(cfg, s, step, k)
  {
    ReachableInv(cfg, s);
    match step
    case ByUser(op) => UserKeepsHome(cfg, s, op, s', k);
    case ByController(op) => ControllerKeepsHome(cfg, s, op, s', k);
    case ByLoop(op) => LoopKeepsHome(cfg, s, op, s', k);
    case ByFlight(g, op) =>
      if GoesAstray(cfg, s, step, k) {
        ReenterLands(s, g, op.q, s');
        assert Abroad(cfg, s', k, Backing(op.q));
      } else {
        FlightKeepsHome(cfg, s, g, op, s', k);
      }
  }

  lemma UserKeepsHome(cfg: Config, s: State, op: UserOp, s': State, k: string)
    requires Resolved(s) && UserStep(cfg, s, op, s') && !Stray(cfg, s, k)
    ensures !Stray(cfg, s', k)
  {
    KeptEffect(s, s');
    EffectKeepsHome(cfg, s, Stay, s', k);
  }

  /** In a run, a unit is in another namespace's queue only after its goroutine returned it to one. */
  lemma StrayHasACause(cfg: Config, states: seq<State>, steps: seq<Step>, i: nat, k: string) returns (j: nat)
    requires ConfigOk(cfg) && IsRun(cfg, states, steps) && i < |states| && Stray(cfg, states[i], k)
    ensures j < i && GoesAstray(cfg, states[j], steps[j], k)
  {
    assert forall p :: !At(states[0], k, p);
    j := 0;
    while j < i && !Stray(cfg, states[j + 1], k)
      invariant j <= i && !Stray(cfg, states[j], k)
    {
      j := j + 1;
    }
    RunStatesAreReachable(cfg, states, steps, j);
    StrayBeginsIff(cfg, states[j], steps[j], states[j + 1], k);
  }

  /**
   A handled delete event leaves its unit in some place exactly when it was not in a heap of its
   own namespace's queue: in hand, in flight, or in another queue.
   */
  lemma DeleteMissesIff(cfg: Config, s: State, id: ObjId, s': State)
    requires Placed(cfg, s) && DeliverStep(s, id, s') && s.queued[0].OnDelete?
    ensures var k := Key(s.queued[0].unit);
            Somewhere(s', k) <==> exists p :: At(s, k, p) && p != Active(Home(cfg, k)) && p != Backing(Home(cfg, k))
  {
    var k, e := Key(s.queued[0].unit), ControllerEffectOf(s, DeliverQueued(id));
    assert OkUnit(cfg, s.used, s.queued[0].unit);
    DeliverEffect(s, id, s');
    forall p ensures At(s', k, p) <==> At(s, k, p) && p != Active(Home(cfg, k)) && p != Backing(Home(cfg, k)) {
      assert ObjAt(s', k, p) == After(s, e, k, p);
    }
  }

  /** A goroutine in ErrorFunc looks its unit up and returns it to q. */
  lemma ReturnTo(cfg: Config, s: State, g: nat, q: string) returns (s': State)
    requires ConfigOk(cfg) && Reachable(cfg, s) && g in s.flights && s.flights[g].obj in s.store
    requires s.flights[g].stage == Erring(Lookup) && Key(s.store[s.flights[g].obj].unit) in s.api && Captured(s, g, q)
    ensures Reachable(cfg, s') && At(s', FlightName(s, g), Backing(q)) && s'.api == s.api && s'.queued == s.queued
  {
    ReachableInv(cfg, s);
    var o := s.flights[g].obj;
    var s1 := Refreshed(s, o).(flights := s.flights[g := s.flights[g].(stage := Erring(Reenter))]);
    NextIsReachable(cfg, s, ByFlight(g, FlightLookup(true)), s1);
    s' := ReenterAt(cfg, s1, g, q);
  }

  lemma ReenterAt(cfg: Config, s: State, g: nat, q: string) returns (s': State)
    requires ConfigOk(cfg) && Reachable(cfg, s) && g in s.flights && s.flights[g].obj in s.store
    requires s.flights[g].stage == Erring(Reenter) && Captured(s, g, q)
    ensures Reachable(cfg, s') && At(s', FlightName(s, g), Backing(q)) && s'.api == s.api && s'.queued == s.queued
  {
    ReachableInv(cfg, s);
    s' := Reentered(s, s.flights[g].obj, q).(flights := s.flights - {g});
    NextIsReachable(cfg, s, ByFlight(g, FlightReenter(q)), s');
    ReenterLands(s, g, q, s');
  }

  /** The unit is deleted while it is backing off in q. */
  lemma DeleteIt(cfg: Config, s: State, k: string) returns (s': State)
    requires OkApi(cfg, s.used, s.api) && k in s.api && s.api[k].phase != Dequeued && s.queued == []
    ensures UserStep(cfg, s, DeleteUnit(k), s') && k !in s'.api && s'.queues == s.queues
    ensures s'.queued == [OnDelete(s.api[k])] && s.api[k].consumerNamespace == Home(cfg, k)
  {
    s' := Remove(s, k);
    assert OkUnit(cfg, s.used, s.api[k]) && Key(s.api[k]) == k;
  }

  /** Its delete event looks for it in its own queue only. */
  lemma LookElsewhere(s: State, k: string, q: string) returns (id: ObjId, s': State)
    requires At(s, k, Backing(q)) && |s.queued| == 1 && s.queued[0].OnDelete? && s.queued[0].unit.consumerNamespace != q
    ensures DeliverStep(s, id, s') && At(s', k, Backing(q)) && s'.queued == [] && s'.api == s.api
  {
    id := Unused(s.store.Keys);
    s' := HandleQueued(s.(queued := s.queued[1..]), s.queued[0], id);
  }

  lemma DeleteMisses(cfg: Config, s: State, k: string, q: string) returns (s': State)
    requires ConfigOk(cfg) && Reachable(cfg, s) && At(s, k, Backing(q)) && q != Home(cfg, k)
    requires k in s.api && s.api[k].phase != Dequeued && s.queued == []
    ensures Reachable(cfg, s') && k !in s'.api && s'.queued == [] && At(s', k, Backing(q))
  {
    ReachableInv(cfg, s);
    var s1 := DeleteIt(cfg, s, k);
    NextIsReachable(cfg, s, ByUser(DeleteUnit(k)), s1);
    var id;
    id, s' := LookElsewhere(s1, k, q);
    NextIsReachable(cfg, s1, ByController(DeliverQueued(id)), s');
  }

  // ---------- where a unit can get to ----------

  /**
   k can be admitted on its own, and q is a queue of no higher priority than its own. (From its
   own queue on, a pass visits no other.)
   */
  ghost predicate CanStray(cfg: Config, k: string, q: string)
  {
    && Schedulable(cfg, k) && FitTogether(cfg, {k})
    && q in cfg.queues && !Priority.Outranks(cfg.queues[q].priority, cfg.queues[Home(cfg, k)].priority)
  }

  lemma CanStrayByRank(cfg: Config, k: string, q: string)
    requires Schedulable(cfg, k) && FitTogether(cfg, {k}) && q in cfg.queues
    ensures CanStray(cfg, k, q) <==> RankIn(cfg.queues, q) <= RankIn(cfg.queues, Home(cfg, k))
  {
    Priority.OutranksIff(cfg.queues[q].priority, cfg.queues[Home(cfg, k)].priority);
  }

  /** The queue the unit in hand was popped from. */
  function HandQueue(s: State): string
  {
    if s.sched.Filtering? || s.sched.Failing? then s.sched.q else ""
  }

  /** k is at p, or on its way to a heap, within what it can get to. */
  ghost predicate Lodged(cfg: Config, s: State, k: string, p: Place)
  {
    match p
    case Active(q) => q == Home(cfg, k) || CanStray(cfg, k, q)
    case Backing(q) => q == Home(cfg, k) || CanStray(cfg, k, q)
    case Hand => HandQueue(s) == Home(cfg, k) || CanStray(cfg, k, HandQueue(s))
    case InFlight(g) => g in s.flights ==> forall q | q in s.flights[g].ahead :: CanStray(cfg, k, q)
  }

  /** No queue of names is of higher priority than r, and each is of none higher than those before it. */
  predicate Falling(cfg: Config, r: int, names: seq<string>)
  {
    && (forall i | 0 <= i < |names| :: RankIn(cfg.queues, names[i]) <= r)
    && forall i, j | 0 <= i < j < |names| :: RankIn(cfg.queues, names[i]) >= RankIn(cfg.queues, names[j])
  }

  /** What the loop still has to visit is of no higher priority than what it is visiting. */
  predicate Descends(cfg: Config, sched: Sched)
  {
    match sched
    case Idle => true
    case Visiting(rest, _) => rest == [] || Falling(cfg, RankIn(cfg.queues, rest[0]), rest)
    case Filtering(_, q, _, rest, _) => Falling(cfg, RankIn(cfg.queues, q), rest)
    case Failing(_, q, _, rest, _) => Falling(cfg, RankIn(cfg.queues, q), rest)
  }

  ghost predicate AllLodged(cfg: Config, s: State)
  {
    forall k, p | At(s, k, p) :: Lodged(cfg, s, k, p)
  }

  ghost predicate Tracked(cfg: Config, s: State)
  {
    Descends(cfg, s.sched) && AllLodged(cfg, s)
  }

  lemma EffectKeepsLodged(cfg: Config, s: State, e: Effect, s': State)
    requires AllLodged(cfg, s) && Effected(s, e, s') && Sound(s, e)
    requires HandObj(s).Some? && HandObj(s').Some? ==> HandQueue(s') == HandQueue(s)
    requires forall g | g in s.flights && g in s'.flights :: s'.flights[g].ahead == s.flights[g].ahead
    requires e.Arrive? ==> Lodged(cfg, s', e.k, e.p)
    requires e.Move? ==> Lodged(cfg, s', e.k, e.to)
    ensures AllLodged(cfg, s')
  {
    forall k, p | At(s', k, p) ensures Lodged(cfg, s', k, p) {
      var from := Origin(s, e, s', k, p);
      if !(e.Arrive? && e.k == k && e.p == p) && !(e.Move? && e.k == k && e.to == p) {
        assert At(s, k, from) && Lodged(cfg, s, k, from);
      }
    }
  }

  lemma DeliverKeepsLodged(cfg: Config, s: State, id: ObjId, s': State)
    requires Placed(cfg, s) && AllLodged(cfg, s) && DeliverStep(s, id, s')
    ensures AllLodged(cfg, s')
  {
    DeliverEffect(s, id, s');
    DeliverIsSound(s, id, s');
    DeliverFrame(s, id, s');
    assert OkUnit(cfg, s.used, s.queued[0].unit);
    EffectKeepsLodged(cfg, s, ControllerEffectOf(s, DeliverQueued(id)), s');
  }

  lemma ControllerKeepsTracked(cfg: Config, s: State, op: ControllerOp, s': State)
    requires Placed(cfg, s) && Tracked(cfg, s) && ControllerStep(cfg, s, op, s')
    ensures Tracked(cfg, s')
  {
    if op.DeliverQueued? {
      DeliverKeepsLodged(cfg, s, op.id, s');
      DeliverFrame(s, op.id, s');
    } else if op.DeliverDequeued? {
      HandledFrame(cfg, s, s');
      KeptEffect(s, s');
      EffectKeepsLodged(cfg, s, Stay, s');
    } else {
      FlushEffect(s, op.q, op.moved, s');
      EffectKeepsLodged(cfg, s, Promote(op.q, op.moved), s');
    }
  }

  lemma UserKeepsTracked(cfg: Config, s: State, op: UserOp, s': State)
    requires Placed(cfg, s) && Tracked(cfg, s) && UserStep(cfg, s, op, s')
    ensures Tracked(cfg, s')
  {
    KeptEffect(s, s');
    EffectKeepsLodged(cfg, s, Stay, s');
  }

  lemma FlightKeepsTracked(cfg: Config, s: State, g: nat, op: FlightOp, s': State)
    requires Placed(cfg, s) && Tracked(cfg, s) && FlightStep(s, g, op, s')
    ensures Tracked(cfg, s')
  {
    FlightEffect(s, g, op, s');
    FlightIsSound(s, g, op, s');
    FlightSched(s, g, op, s');
    FlightsKeepAhead(s, g, op, s');
    assert At(s, FlightName(s, g), InFlight(g)) && Lodged(cfg, s, FlightName(s, g), InFlight(g));
    EffectKeepsLodged(cfg, s, FlightEffectOf(s, g, op), s');
  }

  lemma FlightsKeepAhead(s: State, g: nat, op: FlightOp, s': State)
    requires FlightStep(s, g, op, s')
    ensures forall x | x in s.flights && x in s'.flights :: s'.flights[x].ahead == s.flights[x].ahead
  {
  }

  lemma FallingTail(cfg: Config, r: int, names: seq<string>)
    requires Falling(cfg, r, names) && names != []
    ensures Falling(cfg, RankIn(cfg.queues, names[0]), names)
    ensures Falling(cfg, RankIn(cfg.queues, names[0]), names[1..])
    ensures names[1..] != [] ==> Falling(cfg, RankIn(cfg.queues, names[1]), names[1..])
  {
  }

  lemma LoopKeepsDescends(cfg: Config, s: State, op: LoopOp, s': State)
    requires Descends(cfg, s.sched) && LoopStep(cfg, s, op, s')
    ensures Descends(cfg, s'.sched)
  {
    if op.StartPass? {
      RanksFall(cfg.queues, op.order);
    } else if !s.sched.Idle? && s.sched.rest != [] {
      var rest := s.sched.rest;
      FallingTail(cfg, RankIn(cfg.queues, if s.sched.Visiting? then rest[0] else s.sched.q), rest);
    }
  }

  /** What a reservation that passed Filter asks for fits into the quota alone. */
  lemma CheckedFitsAlone(cfg: Config, s: State, u: QueueUnit)
    requires ConfigOk(cfg) && Accounted(cfg, s) && Genuine(cfg, u) && Checked(cfg, s, Inherited(cfg, s), u, {})
    ensures FitTogether(cfg, {Key(u)})
  {
    var k, base := Key(u), Inherited(cfg, s);
    forall ns, r | Limited(cfg.quotas, ns, r)
      ensures Total(Claims(cfg, {k}), ns, r) <= LimitOf(cfg.quotas, ns, r)
    {
      assert Claims(cfg, {}) == map[] && {} + {k} == {k};
      OneMoreClaim(cfg, {}, k, ns, r);
      NetIsNotNegative(cfg, s, ns, r);
    }
  }

  lemma NetIsNotNegative(cfg: Config, s: State, ns: string, r: string)
    requires ConfigOk(cfg) && Accounted(cfg, s)
    ensures Net(cfg, s, Inherited(cfg, s), ns, r) >= 0
  {
    MoreClaimsMore(cfg, Inherited(cfg, s), s.ledger.quRecord, ns, r);
  }

  /** The new goroutine's unit can get to every queue the goroutine may see. */
  lemma LaunchIsLodged(cfg: Config, s: State, g: nat, s': State)
    requires ConfigOk(cfg) && Inv(cfg, s) && Sourced(cfg, s) && Tracked(cfg, s)
    requires s.sched.Filtering? && s.sched.obj in s.store && LoopStep(cfg, s, ReserveUnit(g), s')
    ensures g in s'.flights && Lodged(cfg, s', HandName(s), InFlight(g))
  {
    var k := HandName(s);
    HandIsGenuine(cfg, s);
    ReserveNeverRefused(cfg, s);
    ReserveFrame(cfg, s, g, s');
    ReserveIsSourced(cfg, s, g, s');
    CheckedFitsAlone(cfg, s, s.store[s.sched.obj].unit);
    assert Lodged(cfg, s, k, Hand);
    CanStrayByRank(cfg, k, s.sched.q);
    forall q | q in Launch(s).ahead ensures CanStray(cfg, k, q) {
      CanStrayByRank(cfg, k, q);
      assert q == s.sched.q || q in s.sched.rest;
    }
  }

  lemma ReserveKeepsTracked(cfg: Config, s: State, g: nat, s': State)
    requires ConfigOk(cfg) && Inv(cfg, s) && Sourced(cfg, s) && Tracked(cfg, s)
    requires s.sched.Filtering? && s.sched.obj in s.store && LoopStep(cfg, s, ReserveUnit(g), s')
    ensures AllLodged(cfg, s')
  {
    LaunchIsLodged(cfg, s, g, s');
    LaunchKeepsLodged(cfg, s, g, s');
  }

  lemma LaunchKeepsLodged(cfg: Config, s: State, g: nat, s': State)
    requires Placed(cfg, s) && Accounted(cfg, s) && AllLodged(cfg, s)
    requires s.sched.Filtering? && s.sched.obj in s.store && LoopStep(cfg, s, ReserveUnit(g), s')
    requires g in s'.flights && Lodged(cfg, s', HandName(s), InFlight(g))
    ensures AllLodged(cfg, s')
  {
    HandIsGenuine(cfg, s);
    ReserveNeverRefused(cfg, s);
    ReserveFrame(cfg, s, g, s');
    HandTakesOff(s, g, s');
    assert At(s, HandName(s), Hand);
    EffectKeepsLodged(cfg, s, Move(HandName(s), Hand, InFlight(g)), s');
  }

  lemma LoopKeepsTracked(cfg: Config, s: State, op: LoopOp, s': State)
    requires ConfigOk(cfg) && Inv(cfg, s) && Sourced(cfg, s) && Tracked(cfg, s) && LoopStep(cfg, s, op, s')
    ensures Tracked(cfg, s')
  {
    LoopKeepsDescends(cfg, s, op, s');
    if op.ReserveUnit? {
      ReserveKeepsTracked(cfg, s, op.g, s');
    } else {
      RestKeepsLodged(cfg, s, op, s');
    }
  }

  lemma RestKeepsLodged(cfg: Config, s: State, op: LoopOp, s': State)
    requires Placed(cfg, s) && AllLodged(cfg, s) && LoopStep(cfg, s, op, s') && !op.ReserveUnit?
    ensures AllLodged(cfg, s')
  {
    var e := LoopEffectOf(s, op);
    LoopEffect(cfg, s, op, s');
    LoopIsSound(cfg, s, op, s');
    LoopKeepsRoute(cfg, s, op, s');
    LoopFrame(cfg, s, op, s');
    if e.Move? {
      assert Lodged(cfg, s, e.k, e.from);
    }
    EffectKeepsLodged(cfg, s, e, s');
  }

  lemma NextKeepsTracked(cfg: Config, s: State, step: Step, s': State)
    requires ConfigOk(cfg) && Reachable(cfg, s) && Tracked(cfg, s) && Next(cfg, s, step, s')
    ensures Tracked(cfg, s')
  {
    ReachableInv(cfg, s);
    ReachableIsSourced(cfg, s);
    match step
    case ByUser(op) => UserKeepsTracked(cfg, s, op, s');
    case ByController(op) => ControllerKeepsTracked(cfg, s, op, s');
    case ByLoop(op) => LoopKeepsTracked(cfg, s, op, s');
    case ByFlight(g, op) => FlightKeepsTracked(cfg, s, g, op, s');
  }

  lemma ReachableIsTracked(cfg: Config, s: State)
    requires ConfigOk(cfg) && Reachable(cfg, s)
    ensures Tracked(cfg, s)
  {
    var states, steps :| IsRun(cfg, states, steps) && states[|steps|] == s;
    assert forall k, p :: !At(states[0], k, p);
    for i := 0 to |steps|
      invariant Tracked(cfg, states[i])
    {
      RunStatesAreReachable(cfg, states, steps, i);
      NextKeepsTracked(cfg, states[i], steps[i], states[i + 1]);
    }
  }

  // ---------- and that it gets there ----------

  /** s with the loop about to visit the n-th queue of order. */
  function MovedTo(s: State, order: seq<string>, n: nat): State
    requires s.sched.Visiting? && n <= |order|
  {
    s.(sched := Visiting(order[n..], s.sched.pass))
  }

  lemma SkipOne(cfg: Config, s: State, order: seq<string>, n: nat)
    requires s.sched.Visiting? && n < |order| && LoopLeads(cfg, s, MovedTo(s, order, n))
    requires order[n] in s.queues ==> s.queues[order[n]].active == map[]
    ensures LoopLeads(cfg, s, MovedTo(s, order, n + 1))
  {
    assert order[n..][0] == order[n] && order[n..][1..] == order[n + 1..];
    LoopThen(cfg, s, MovedTo(s, order, n), SkipQueue, MovedTo(s, order, n + 1));
  }

  /** Nothing is active in the queues of order from the a-th up to the b-th. */
  predicate Quiet(s: State, order: seq<string>, a: nat, b: nat)
    requires b <= |order|
  {
    forall i | a <= i < b :: order[i] in s.queues ==> s.queues[order[i]].active == map[]
  }

  /** The loop passes over queues in which nothing is active. */
  lemma {:induction false} SkipTo(cfg: Config, s: State, order: seq<string>, a: nat, b: nat)
    requires s.sched.Visiting? && a <= b <= |order| && s.sched.rest == order[a..] && Quiet(s, order, a, b)
    ensures LoopLeads(cfg, s, MovedTo(s, order, b))
    decreases b
  {
    if a == b {
      LoopStays(cfg, s);
    } else {
      SkipTo(cfg, s, order, a, b - 1);
      SkipOne(cfg, s, order, b - 1);
    }
  }

  /** A pass begins and gets to the n-th queue. */
  lemma GoTo(cfg: Config, s: State, order: seq<string>, n: nat) returns (s': State)
    requires Reachable(cfg, s) && s.sched.Idle? && SortedOrder(cfg.queues, order) && n <= |order|
    requires Quiet(s, order, 0, n)
    ensures Reachable(cfg, s')
    ensures s' == s.(sched := Visiting(order[n..], s.passes), passes := s.passes + 1)
  {
    var s1 := s.(sched := Visiting(order, s.passes), passes := s.passes + 1);
    NextIsReachable(cfg, s, ByLoop(StartPass(order)), s1);
    assert order[0..] == order;
    SkipTo(cfg, s1, order, 0, n);
    s' := s1.(sched := Visiting(order[n..], s.passes));
    LoopIsReachable(cfg, s1, s');
  }

  /** The only unit of the queue about to be visited is admitted. */
  lemma AdmitOnly(cfg: Config, s: State, u: QueueUnit, id: ObjId) returns (g: nat, s': State)
    requires Reachable(cfg, s) && s.sched.Visiting? && |s.sched.rest| > 0
    requires id in s.store && s.store[id] == NewQueueUnitInfo(u, s.now) && Admissible(s.ledger, cfg.quotas, u)
    requires s.sched.rest[0] in s.queues
    requires s.queues[s.sched.rest[0]] == QueueSpec.QueueState(map[Key(u) := id], map[])
    ensures Reachable(cfg, s') && g !in s.flights
    ensures s' == s.(queues := s'.queues, sched := Visiting(s.sched.rest[1..], s.sched.pass),
                     ledger := AfterReserve(s.ledger, u),
                     flights := s.flights[g := Flight(id, Dequeuing, s.sched.rest, s.sched.pass)])
    ensures forall x | x in s.queues && x != s.sched.rest[0] :: x in s'.queues && s'.queues[x] == s.queues[x]
  {
    var k := Key(u);
    assert Poppable(s, k) && FrontUnit(s, k) == u;
    g := Unused(s.flights.Keys);
    AdmitPath(cfg, s, k, g);
    s' := Taken(s, k, Visiting(s.sched.rest[1..], s.sched.pass))
            .(ledger := AfterReserve(s.ledger, u), flights := s.flights[g := FrontFlight(s, k)]);
    LoopIsReachable(cfg, s, s');
  }

  /** It is admitted, and the loop gets on to the m-th queue. */
  lemma AdmitAndGoOn(cfg: Config, s: State, u: QueueUnit, id: ObjId, order: seq<string>, n: nat, m: nat)
    returns (g: nat, s': State)
    requires Reachable(cfg, s) && s.sched.Visiting? && n < m < |order| && s.sched.rest == order[n..]
    requires id in s.store && s.store[id] == NewQueueUnitInfo(u, s.now) && Admissible(s.ledger, cfg.quotas, u)
    requires order[n] in s.queues && s.queues[order[n]] == QueueSpec.QueueState(map[Key(u) := id], map[])
    requires forall i | n < i <= m :: order[i] in s.queues && order[i] != order[n] && s.queues[order[i]].active == map[]
    ensures Reachable(cfg, s') && s'.api == s.api && s'.queued == s.queued
    ensures s'.sched == Visiting(order[m + 1..], s.sched.pass)
    ensures g in s'.flights && s'.flights[g] == Flight(id, Dequeuing, order[n..], s.sched.pass)
    ensures id in s'.store && s'.store[id] == s.store[id]
  {
    assert order[n..][0] == order[n] && order[n..][1..] == order[n + 1..];
    var s1;
    g, s1 := AdmitOnly(cfg, s, u, id);
    SkipTo(cfg, s1, order, n + 1, m + 1);
    s' := MovedTo(s1, order, m + 1);
    LoopIsReachable(cfg, s1, s');
  }

  /** The goroutine fails and returns its unit to the queue the loop has got to. */
  lemma FailAstray(cfg: Config, s: State, g: nat, k: string, q: string) returns (s': State)
    requires ConfigOk(cfg) && Reachable(cfg, s) && g in s.flights && HoldsReservation(s.flights[g])
    requires Captured(s, g, q) && FlightName(s, g) == k && k in s.api
    ensures Reachable(cfg, s') && At(s', k, Backing(q)) && s'.api == s.api && s'.queued == s.queued
  {
    ReachableInv(cfg, s);
    var s1 := DequeueFails(cfg, s, g);
    var s2 := GiveUp(cfg, s1, g);
    ReachableInv(cfg, s2);
    s' := ReturnTo(cfg, s2, g, q);
  }

  /** The positions of a unit's own queue and of one it can stray to. */
  lemma Positions(queues: map<string, Queue>, order: seq<string>, h: string, q: string) returns (n: nat, m: nat)
    requires SortedOrder(queues, order) && LeadsItsRank(queues, order, h)
    requires h in queues && q in queues && q != h && RankIn(queues, q) <= RankIn(queues, h)
    ensures n < m < |order| && order[n] == h && order[m] == q
    ensures q in order[n..] && q !in order[m + 1..]
  {
    n :| 0 <= n < |order| && order[n] == h;
    m :| 0 <= m < |order| && order[m] == q;
    assert m > n;
    assert order[n..][m - n] == q;
  }

  /** A unit that can get to q gets there, and stays there after it is deleted. */
  lemma StraysTo(cfg: Config, k: string, q: string) returns (s: State)
    requires ConfigOk(cfg) && CanStray(cfg, k, q) && q != Home(cfg, k)
    ensures Reachable(cfg, s) && k !in s.api && s.queued == [] && At(s, k, Backing(q))
  {
    var s0 := Begin(cfg);
    var u := NewUnit(cfg, k);
    assert {} + {k} == {k};
    FittingIsAdmissible(cfg, s0, {}, u);
    var id, s1 := Arrives(cfg, s0, u);
    var order := OrderExists(cfg.queues, Home(cfg, k));
    CanStrayByRank(cfg, k, q);
    var n, m := Positions(cfg.queues, order, Home(cfg, k), q);
    OnlyHomeIsActive(cfg, s1, order, n, k, id);
    var s2 := GoTo(cfg, s1, order, n);
    var g, s3 := AdmitAndGoOn(cfg, s2, u, id, order, n, m);
    var s4 := FailAstray(cfg, s3, g, k, q);
    s := DeleteMisses(cfg, s4, k, q);
  }

  lemma OnlyHomeIsActive(cfg: Config, s: State, order: seq<string>, n: nat, k: string, id: ObjId)
    requires SortedOrder(cfg.queues, order) && n < |order|
    requires s.queues == EmptyQueues(cfg.queues)[order[n] := QueueSpec.QueueState(map[k := id], map[])]
    ensures forall i | 0 <= i < |order| && i != n ::
              order[i] in s.queues && order[i] != order[n] && s.queues[order[i]].active == map[]
  {
    forall i | 0 <= i < |order| && i != n
      ensures order[i] in s.queues && order[i] != order[n] && s.queues[order[i]].active == map[]
    {
      assert order[i] in cfg.queues && order[i] != order[n];
    }
  }

  predicate InHeapOf(s: State, k: string, q: string)
  {
    At(s, k, Active(q)) || At(s, k, Backing(q))
  }

  /** The unit is in a heap of q though it is deleted and no event about it is left. */
  predicate Outlives(s: State, k: string, q: string)
  {
    InHeapOf(s, k, q) && k !in s.api && s.queued == []
  }

  /**
   Exactly when a unit can get into another namespace's queue, in some state of some run: when it
   can be admitted on its own and that queue is of no higher priority than its own. It can then
   also stay there after it is deleted and its delete event has been handled.
   */
  lemma StrayIff(cfg: Config, k: string, q: string)
    requires ConfigOk(cfg) && q != Home(cfg, k)
    ensures (exists s :: Reachable(cfg, s) && InHeapOf(s, k, q)) <==> CanStray(cfg, k, q)
    ensures (exists s :: Reachable(cfg, s) && Outlives(s, k, q)) <==> CanStray(cfg, k, q)
  {
    forall s | Reachable(cfg, s) && InHeapOf(s, k, q) ensures CanStray(cfg, k, q) {
      ReachableIsTracked(cfg, s);
      var p := if At(s, k, Active(q)) then Active(q) else Backing(q);
      assert At(s, k, p) && Lodged(cfg, s, k, p);
    }
    if CanStray(cfg, k, q) {
      var s := StraysTo(cfg, k, q);
      assert InHeapOf(s, k, q) && Outlives(s, k, q);
    }
  }
}
