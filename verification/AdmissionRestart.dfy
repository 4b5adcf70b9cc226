/**
 Quota safety across a restart. The units that are Dequeued when the scheduler starts reach
 the ledger through their add events, and nothing makes the first pass wait for them: a run
 can overshoot the quota. A run whose passes do wait never does.
 */
module AdmissionRestart {
  import opened Units
  import opened QuotaLedger
  import opened Admission
  import opened AdmissionTokens
  import opened AdmissionLedger
  import opened AdmissionQuota
  import opened AdmissionTheorems

  /** The units of these keys fit into the quota together. */
  ghost predicate FitTogether(cfg: Config, keys: set<string>)
  {
    forall ns, r | Limited(cfg.quotas, ns, r) :: Total(Claims(cfg, keys), ns, r) <= LimitOf(cfg.quotas, ns, r)
  }

  /** A pass starts only once the add event of every such unit has been handled. */
  ghost predicate PassWaits(cfg: Config, s: State, step: Step)
  {
    step.ByLoop? && step.loop.StartPass? ==> s.adopted == cfg.boot.Keys
  }

  /** Before the first pass only taken-over units are recorded. */
  predicate Starting(s: State)
  {
    s.sched.Idle? && s.flights == map[] && s.ledger.quRecord <= s.adopted
  }

  ghost predicate Restarted(cfg: Config, s: State)
  {
    Starting(s) || (s.adopted == cfg.boot.Keys && Budgeted(cfg, s, {}))
  }

  lemma {:induction false} MoreClaimsMore(cfg: Config, a: set<string>, b: set<string>, ns: string, r: string)
    requires ConfigOk(cfg) && a <= b
    ensures Total(Claims(cfg, a), ns, r) <= Total(Claims(cfg, b), ns, r)
    decreases b
  {
    if a != b {
      assert exists k :: k in b && k !in a;
      var k :| k in b && k !in a;
      TotalWithout(Claims(cfg, b), k, ns, r);
      assert Claims(cfg, b) - {k} == Claims(cfg, b - {k});
      ShareNonNegative(cfg, k, ns, r);
      MoreClaimsMore(cfg, a, b - {k}, ns, r);
    }
  }

  lemma StartingFits(cfg: Config, s: State, ns: string, r: string)
    requires ConfigOk(cfg) && FitTogether(cfg, cfg.boot.Keys) && Accounted(cfg, s) && Starting(s)
    requires Limited(cfg.quotas, ns, r)
    ensures Reserved(s.ledger, ns, r) <= LimitOf(cfg.quotas, ns, r)
  {
    MoreClaimsMore(cfg, s.ledger.quRecord, cfg.boot.Keys, ns, r);
  }

  /** The handlers, while only taken-over units are recorded. */
  lemma ControllerKeepsStarting(cfg: Config, s: State, op: ControllerOp, s': State)
    requires Accounted(cfg, s) && Starting(s) && ControllerStep(cfg, s, op, s')
    ensures Starting(s')
  {
    if op.DeliverQueued? {
      DeliverFrame(s, op.id, s');
    } else if op.DeliverDequeued? {
      var k := Key(s.dequeued[0].unit);
      assert Claimed(s.api, s.dequeued, Key(s.dequeued[0].unit));
      assert k !in cfg.boot ==> Due(cfg, s, k);
    }
  }

  lemma ControllerKeepsRestarted(cfg: Config, s: State, op: ControllerOp, s': State)
    requires ConfigOk(cfg) && Placed(cfg, s) && Accounted(cfg, s) && Restarted(cfg, s) && ControllerStep(cfg, s, op, s')
    ensures Restarted(cfg, s')
  {
    if Starting(s) {
      ControllerKeepsStarting(cfg, s, op, s');
    } else {
      ControllerKeepsAccounted(cfg, s, op, s');
      ControllerKeepsHand(cfg, s, op, s');
      OthersKeepBudgeted(cfg, s, {}, s', {});
    }
  }

  lemma UserKeepsRestarted(cfg: Config, s: State, op: UserOp, s': State)
    requires Placed(cfg, s) && Restarted(cfg, s) && UserStep(cfg, s, op, s')
    ensures Restarted(cfg, s')
  {
  }

  lemma FlightKeepsRestarted(cfg: Config, s: State, g: nat, op: FlightOp, s': State)
    requires ConfigOk(cfg) && Placed(cfg, s) && Accounted(cfg, s) && Restarted(cfg, s) && FlightStep(s, g, op, s')
    ensures Restarted(cfg, s')
  {
    FlightKeepsAccounted(cfg, s, g, op, s');
    FlightKeepsHand(s, g, op, s');
    if op == DequeueOk { DequeueFrame(s, g, s'); } else { FlightFrame(s, g, op, s'); }
    OthersKeepBudgeted(cfg, s, {}, s', {});
  }

  lemma LoopKeepsRestarted(cfg: Config, s: State, op: LoopOp, s': State)
    requires ConfigOk(cfg) && FitTogether(cfg, cfg.boot.Keys) && Placed(cfg, s) && Accounted(cfg, s) &&
             Restarted(cfg, s) && LoopStep(cfg, s, op, s')
    requires PassWaits(cfg, s, ByLoop(op))
    ensures Restarted(cfg, s')
  {
    LoopFrame(cfg, s, op, s');
    if Starting(s) {
      assert op.StartPass?;
      forall ns, r | Limited(cfg.quotas, ns, r) ensures Net(cfg, s', {}, ns, r) <= LimitOf(cfg.quotas, ns, r) {
        StartingFits(cfg, s, ns, r);
        assert Claims(cfg, {}) == map[];
      }
    } else {
      LoopKeepsBudgeted(cfg, s, {}, op, s');
    }
  }

  lemma NextKeepsRestarted(cfg: Config, s: State, step: Step, s': State)
    requires ConfigOk(cfg) && FitTogether(cfg, cfg.boot.Keys) && Placed(cfg, s) && Accounted(cfg, s) &&
             Restarted(cfg, s)
    requires Next(cfg, s, step, s') && PassWaits(cfg, s, step)
    ensures Restarted(cfg, s')
  {
    match step
    case ByUser(op) => UserKeepsRestarted(cfg, s, op, s');
    case ByController(op) => ControllerKeepsRestarted(cfg, s, op, s');
    case ByLoop(op) => LoopKeepsRestarted(cfg, s, op, s');
    case ByFlight(g, op) => FlightKeepsRestarted(cfg, s, g, op, s');
  }

  lemma {:induction false} RunKeepsRestarted(cfg: Config, states: seq<State>, steps: seq<Step>, i: nat)
    requires ConfigOk(cfg) && FitTogether(cfg, cfg.boot.Keys) && IsRun(cfg, states, steps) && i < |states|
    requires forall j | 0 <= j < |steps| :: PassWaits(cfg, states[j], steps[j])
    ensures Restarted(cfg, states[i])
  {
    if i > 0 {
      RunKeepsRestarted(cfg, states, steps, i - 1);
      RunKeepsInv(cfg, states, steps, i - 1);
      NextKeepsRestarted(cfg, states[i - 1], steps[i - 1], states[i]);
    }
  }

  /**
   If the units Dequeued before the start fit into the quota, and passes wait until all of
   them are taken over, then no limit is ever exceeded.
   */
  lemma RestartSafety(cfg: Config, states: seq<State>, steps: seq<Step>, i: nat, ns: string, r: string)
    requires ConfigOk(cfg) && FitTogether(cfg, cfg.boot.Keys) && IsRun(cfg, states, steps) && i < |states|
    requires forall j | 0 <= j < |steps| :: PassWaits(cfg, states[j], steps[j])
    requires Limited(cfg.quotas, ns, r)
    ensures Reserved(states[i].ledger, ns, r) <= LimitOf(cfg.quotas, ns, r)
  {
    RunKeepsRestarted(cfg, states, steps, i);
    RunKeepsInv(cfg, states, steps, i);
    if Starting(states[i]) {
      StartingFits(cfg, states[i], ns, r);
    } else {
      assert Net(cfg, states[i], {}, ns, r) <= LimitOf(cfg.quotas, ns, r);
      assert Claims(cfg, {}) == map[];
    }
  }

  // ---------- the quota recovers ----------

  /** Every unit from before the start has been reported and released again. */
  predicate Recovered(cfg: Config, s: State)
  {
    s.adopted == cfg.boot.Keys && Inherited(cfg, s) == {}
  }

  lemma ControllerKeepsRecovered(cfg: Config, s: State, op: ControllerOp, s': State)
    requires ConfigOk(cfg) && Placed(cfg, s) && Accounted(cfg, s) && Recovered(cfg, s) && ControllerStep(cfg, s, op, s')
    ensures Recovered(cfg, s')
  {
    ControllerKeepsAccounted(cfg, s, op, s');
    ControllerKeepsHand(cfg, s, op, s');
  }

  lemma FlightKeepsRecovered(cfg: Config, s: State, g: nat, op: FlightOp, s': State)
    requires ConfigOk(cfg) && Placed(cfg, s) && Accounted(cfg, s) && Recovered(cfg, s) && FlightStep(s, g, op, s')
    ensures Recovered(cfg, s')
  {
    FlightKeepsAccounted(cfg, s, g, op, s');
    if op == DequeueOk { DequeueFrame(s, g, s'); } else { FlightFrame(s, g, op, s'); }
  }

  lemma NextKeepsRecovered(cfg: Config, s: State, step: Step, s': State)
    requires ConfigOk(cfg) && Reachable(cfg, s) && Recovered(cfg, s) && Next(cfg, s, step, s')
    ensures Recovered(cfg, s')
  {
    ReachableInv(cfg, s);
    match step
    case ByUser(op) => UserKeepsAccounted(cfg, s, op, s');
    case ByController(op) => ControllerKeepsRecovered(cfg, s, op, s');
    case ByLoop(op) =>
      LoopFrame(cfg, s, op, s');
      LoopKeepsInherited(cfg, s, op, s');
    case ByFlight(g, op) => FlightKeepsRecovered(cfg, s, g, op, s');
  }

  lemma StaysRecovered(cfg: Config, states: seq<State>, steps: seq<Step>, i: nat, j: nat)
    requires ConfigOk(cfg) && IsRun(cfg, states, steps) && i <= j < |states| && Recovered(cfg, states[i])
    ensures Recovered(cfg, states[j])
  {
    for n := i to j
      invariant Recovered(cfg, states[n])
    {
      RunStatesAreReachable(cfg, states, steps, n);
      NextKeepsRecovered(cfg, states[n], steps[n], states[n + 1]);
    }
  }

  /** Once the units from before the start are reported and released, no limit is exceeded ever after. */
  lemma QuotaRecovers(cfg: Config, states: seq<State>, steps: seq<Step>, i: nat, j: nat, ns: string, r: string)
    requires ConfigOk(cfg) && IsRun(cfg, states, steps) && i <= j < |states| && Recovered(cfg, states[i])
    requires Limited(cfg.quotas, ns, r)
    ensures Reserved(states[j].ledger, ns, r) <= LimitOf(cfg.quotas, ns, r)
  {
    StaysRecovered(cfg, states, steps, i, j);
    QuotaSafety(cfg, states, steps, j, ns, r);
  }
}
