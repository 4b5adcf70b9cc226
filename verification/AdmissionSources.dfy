/**
 Where a recorded unit can come from, and from that the configurations whose quota survives
 a restart whatever the interleaving.
 */
module AdmissionSources {
  import opened Units
  import opened QuotaLedger
  import opened Admission
  import opened AdmissionPlaces
  import opened AdmissionTokens
  import opened AdmissionLedger
  import opened AdmissionQuota
  import opened AdmissionProgress
  import opened AdmissionTheorems
  import opened AdmissionRestart

  ghost predicate WithinLimits(cfg: Config, s: State)
  {
    forall ns, r | Limited(cfg.quotas, ns, r) :: Reserved(s.ledger, ns, r) <= LimitOf(cfg.quotas, ns, r)
  }

  /** k is the key some unit can have. */
  ghost predicate Creatable(cfg: Config, k: string)
  {
    exists u :: Genuine(cfg, u) && Key(u) == k
  }

  /** k can be the key of a new unit whose namespace has a queue and a quota. */
  ghost predicate Schedulable(cfg: Config, k: string)
  {
    && k !in cfg.boot && Creatable(cfg, k)
    && ClaimFor(cfg, k).namespace in cfg.queues && HasHard(cfg.quotas, ClaimFor(cfg, k).namespace)
  }

  ghost predicate AllSchedulable(cfg: Config, keys: set<string>)
  {
    forall k | k in keys :: Schedulable(cfg, k)
  }

  /** Whatever set of new units fits, it still fits beside all the units from before the start. */
  ghost predicate LeavesRoom(cfg: Config)
  {
    forall keys | AllSchedulable(cfg, keys) && FitTogether(cfg, keys) :: FitTogether(cfg, keys + cfg.boot.Keys)
  }

  // ---------- the recorded units ----------

  ghost predicate Homed(cfg: Config, s: State)
  {
    forall k, p | At(s, k, p) :: ClaimFor(cfg, k).namespace in cfg.queues
  }

  /** A unit in some place has a queue of its own; one recorded is schedulable or from before the start. */
  ghost predicate Sourced(cfg: Config, s: State)
  {
    Homed(cfg, s) && forall k | k in s.ledger.quRecord :: k in cfg.boot || Schedulable(cfg, k)
  }

  lemma EffectKeepsHomed(cfg: Config, s: State, e: Effect, s': State)
    requires Homed(cfg, s) && Effected(s, e, s') && Sound(s, e)
    requires e.Arrive? ==> ClaimFor(cfg, e.k).namespace in cfg.queues
    ensures Homed(cfg, s')
  {
    forall k, p | At(s', k, p) ensures ClaimFor(cfg, k).namespace in cfg.queues {
      var from := Origin(s, e, s', k, p);
      assert (e.Arrive? && e.k == k) || At(s, k, from);
    }
  }

  lemma DeliverKeepsHomed(cfg: Config, s: State, id: ObjId, s': State)
    requires Placed(cfg, s) && Routed(cfg, s) && Homed(cfg, s) && DeliverStep(s, id, s')
    ensures Homed(cfg, s')
  {
    DeliverEffect(s, id, s');
    DeliverIsSound(s, id, s');
    assert OkUnit(cfg, s.used, s.queued[0].unit);
    EffectKeepsHomed(cfg, s, ControllerEffectOf(s, DeliverQueued(id)), s');
  }

  lemma ControllerKeepsSourced(cfg: Config, s: State, op: ControllerOp, s': State)
    requires Placed(cfg, s) && Accounted(cfg, s) && Routed(cfg, s) && Sourced(cfg, s) && ControllerStep(cfg, s, op, s')
    ensures Sourced(cfg, s')
  {
    if op.DeliverQueued? {
      DeliverKeepsHomed(cfg, s, op.id, s');
      DeliverFrame(s, op.id, s');
    } else if op.DeliverDequeued? {
      HandledFrame(cfg, s, s');
      KeptEffect(s, s');
      EffectKeepsHomed(cfg, s, Stay, s');
      HandledRecords(cfg, s, s');
    } else {
      FlushEffect(s, op.q, op.moved, s');
      EffectKeepsHomed(cfg, s, Promote(op.q, op.moved), s');
    }
  }

  /** The dequeued handler records nothing but units from before the start. */
  lemma HandledRecords(cfg: Config, s: State, s': State)
    requires Accounted(cfg, s) && HandleStep(cfg, s, s')
    ensures forall k | k in s'.ledger.quRecord :: k in s.ledger.quRecord || k in cfg.boot
  {
    var k := Key(s.dequeued[0].unit);
    assert Claimed(s.api, s.dequeued, Key(s.dequeued[0].unit));
    assert k !in cfg.boot ==> Due(cfg, s, k);
  }

  lemma ReserveIsSourced(cfg: Config, s: State, g: nat, s': State)
    requires Placed(cfg, s) && Accounted(cfg, s) && Gone(cfg, s) && Homed(cfg, s)
    requires s.sched.Filtering? && s.sched.obj in s.store && LoopStep(cfg, s, ReserveUnit(g), s')
    requires FilterHolds(cfg, s, Inherited(cfg, s))
    ensures s'.ledger.quRecord == s.ledger.quRecord + {HandName(s)} && Schedulable(cfg, HandName(s))
  {
    ReserveRecords(cfg, s, g, s');
    HandIsNew(cfg, s);
    HandIsGenuine(cfg, s);
  }

  lemma LoopKeepsSourced(cfg: Config, s: State, op: LoopOp, s': State)
    requires Placed(cfg, s) && Accounted(cfg, s) && Gone(cfg, s) && Sourced(cfg, s) && LoopStep(cfg, s, op, s')
    requires FilterHolds(cfg, s, Inherited(cfg, s))
    ensures Sourced(cfg, s')
  {
    LoopEffect(cfg, s, op, s');
    LoopIsSound(cfg, s, op, s');
    EffectKeepsHomed(cfg, s, LoopEffectOf(s, op), s');
    if op.ReserveUnit? {
      ReserveIsSourced(cfg, s, op.g, s');
    } else {
      LoopFrame(cfg, s, op, s');
    }
  }

  lemma FlightKeepsSourced(cfg: Config, s: State, g: nat, op: FlightOp, s': State)
    requires ConfigOk(cfg) && Placed(cfg, s) && Accounted(cfg, s) && Sourced(cfg, s) && FlightStep(s, g, op, s')
    ensures Sourced(cfg, s')
  {
    FlightKeepsAccounted(cfg, s, g, op, s');
    FlightEffect(s, g, op, s');
    FlightIsSound(s, g, op, s');
    EffectKeepsHomed(cfg, s, FlightEffectOf(s, g, op), s');
  }

  lemma UserKeepsSourced(cfg: Config, s: State, op: UserOp, s': State)
    requires Placed(cfg, s) && Sourced(cfg, s) && UserStep(cfg, s, op, s')
    ensures Sourced(cfg, s')
  {
    KeptEffect(s, s');
    EffectKeepsHomed(cfg, s, Stay, s');
  }

  lemma NextKeepsSourced(cfg: Config, s: State, step: Step, s': State)
    requires ConfigOk(cfg) && Reachable(cfg, s) && Sourced(cfg, s) && Next(cfg, s, step, s')
    ensures Sourced(cfg, s')
  {
    ReachableInv(cfg, s);
    match step
    case ByUser(op) => UserKeepsSourced(cfg, s, op, s');
    case ByController(op) => ControllerKeepsSourced(cfg, s, op, s');
    case ByLoop(op) => LoopKeepsSourced(cfg, s, op, s');
    case ByFlight(g, op) => FlightKeepsSourced(cfg, s, g, op, s');
  }

  lemma ReachableIsSourced(cfg: Config, s: State)
    requires ConfigOk(cfg) && Reachable(cfg, s)
    ensures Sourced(cfg, s)
  {
    var states, steps :| IsRun(cfg, states, steps) && states[|steps|] == s;
    assert forall k, p :: !At(states[0], k, p);
    for i := 0 to |steps|
      invariant Sourced(cfg, states[i])
    {
      RunStatesAreReachable(cfg, states, steps, i);
      NextKeepsSourced(cfg, states[i], steps[i], states[i + 1]);
    }
  }

  /** No new unit is recorded in a namespace whose quota sets no hard limits, or that has none. */
  lemma NoHardNoRecord(cfg: Config, s: State, k: string)
    requires ConfigOk(cfg) && Reachable(cfg, s) && k in s.ledger.quRecord && k !in cfg.boot
    ensures ClaimFor(cfg, k).namespace in cfg.quotas && cfg.quotas[ClaimFor(cfg, k).namespace].Hard?
  {
    ReachableIsSourced(cfg, s);
  }

  // ---------- room for a restart ----------

  lemma {:induction false} TotalSplits(cfg: Config, a: set<string>, b: set<string>, ns: string, r: string)
    requires a !! b
    ensures Total(Claims(cfg, a + b), ns, r) == Total(Claims(cfg, a), ns, r) + Total(Claims(cfg, b), ns, r)
    decreases b
  {
    if b == {} {
      assert a + b == a && Claims(cfg, b) == map[];
    } else {
      var k :| k in b;
      TotalSplits(cfg, a, b - {k}, ns, r);
      OneMoreClaim(cfg, b - {k}, k, ns, r);
      OneMoreClaim(cfg, a + (b - {k}), k, ns, r);
      assert b - {k} + {k} == b && a + (b - {k}) + {k} == a + b;
    }
  }

  /** The recorded units that are new fit into the quota by themselves. */
  lemma NewUnitsFit(cfg: Config, s: State)
    requires Accounted(cfg, s) && UnderLimit(cfg, s, Inherited(cfg, s))
    ensures FitTogether(cfg, s.ledger.quRecord - cfg.boot.Keys)
  {
    var added, base := s.ledger.quRecord - cfg.boot.Keys, Inherited(cfg, s);
    forall ns, r | Limited(cfg.quotas, ns, r)
      ensures Total(Claims(cfg, added), ns, r) <= LimitOf(cfg.quotas, ns, r)
    {
      TotalSplits(cfg, added, base, ns, r);
      assert added + base == s.ledger.quRecord;
      assert Net(cfg, s, base, ns, r) <= LimitOf(cfg.quotas, ns, r);
    }
  }

  /** If the configuration leaves room, no limit is exceeded in any state of any run. */
  lemma RoomKeepsQuota(cfg: Config, s: State)
    requires ConfigOk(cfg) && LeavesRoom(cfg) && Reachable(cfg, s)
    ensures WithinLimits(cfg, s)
  {
    var added := s.ledger.quRecord - cfg.boot.Keys;
    ReachableInv(cfg, s);
    ReachableIsSourced(cfg, s);
    NewUnitsFit(cfg, s);
    assert AllSchedulable(cfg, added);
    forall ns, r | Limited(cfg.quotas, ns, r) ensures Reserved(s.ledger, ns, r) <= LimitOf(cfg.quotas, ns, r) {
      MoreClaimsMore(cfg, s.ledger.quRecord, added + cfg.boot.Keys, ns, r);
    }
  }
}
