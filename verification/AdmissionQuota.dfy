/** Quota safety: what Filter has checked stays true until Reserve uses it. */
module AdmissionQuota {
  import opened Orders
  import opened Units
  import opened QuotaLedger
  import opened Admission
  import opened AdmissionPlaces
  import opened AdmissionTokens
  import opened AdmissionLedger

  /** The resources already checked for u still fit, not counting the claims of base. */
  ghost predicate Checked(cfg: Config, s: State, base: set<string>, u: QueueUnit, unchecked: set<string>)
  {
    && HasHard(cfg.quotas, u.consumerNamespace)
    && forall r | r in u.resource && r !in unchecked && Limited(cfg.quotas, u.consumerNamespace, r) ::
         Net(cfg, s, base, u.consumerNamespace, r) + u.resource[r] <= LimitOf(cfg.quotas, u.consumerNamespace, r)
  }

  ghost predicate UnderLimit(cfg: Config, s: State, base: set<string>)
  {
    forall ns, r | Limited(cfg.quotas, ns, r) :: Net(cfg, s, base, ns, r) <= LimitOf(cfg.quotas, ns, r)
  }

  ghost predicate FilterHolds(cfg: Config, s: State, base: set<string>)
  {
    s.sched.Filtering? && s.sched.obj in s.store ==> Checked(cfg, s, base, s.store[s.sched.obj].unit, s.sched.unchecked)
  }

  ghost predicate Budgeted(cfg: Config, s: State, base: set<string>)
  {
    UnderLimit(cfg, s, base) && FilterHolds(cfg, s, base)
  }

  /** Nobody but the scheduler changes the unit in its hand. */
  predicate HandKept(s: State, s': State)
  {
    && s'.sched == s.sched
    && (HandObj(s).Some? && HandObj(s).value in s.store ==>
          HandObj(s).value in s'.store && s'.store[HandObj(s).value] == s.store[HandObj(s).value])
  }

  /** A step of the others that only gives quota back. */
  lemma OthersKeepBudgeted(cfg: Config, s: State, base: set<string>, s': State, base': set<string>)
    requires Resolved(s) && Budgeted(cfg, s, base) && HandKept(s, s')
    requires forall ns, r :: Net(cfg, s', base', ns, r) <= Net(cfg, s, base, ns, r)
    ensures Budgeted(cfg, s', base')
  {
  }

  /** A goroutine's object is not the one in the scheduler's hand. */
  lemma FlightObjIsNotInHand(s: State, g: nat)
    requires Resolved(s) && Single(s) && g in s.flights
    ensures HandObj(s) != Some(s.flights[g].obj)
  {
    if HandObj(s) == Some(s.flights[g].obj) {
      assert At(s, FlightName(s, g), InFlight(g)) && At(s, FlightName(s, g), Hand);
    }
  }

  lemma FlightKeepsHand(s: State, g: nat, op: FlightOp, s': State)
    requires Resolved(s) && Single(s) && FlightStep(s, g, op, s')
    ensures HandKept(s, s')
  {
    FlightObjIsNotInHand(s, g);
  }

  lemma ControllerKeepsHand(cfg: Config, s: State, op: ControllerOp, s': State)
    requires ControllerStep(cfg, s, op, s')
    ensures s.adopted <= s'.adopted && HandKept(s, s')
  {
    if op.DeliverQueued? {
      DeliverFrame(s, op.id, s');
      DeliverKeepsObjects(s, op.id, s');
    } else if op.DeliverDequeued? {
      HandledFrame(cfg, s, s');
      HandledAdopts(cfg, s, s');
    }
  }

  lemma DeliverKeepsObjects(s: State, id: ObjId, s': State)
    requires DeliverStep(s, id, s')
    ensures forall o | o in s.store :: o in s'.store && s'.store[o] == s.store[o]
  {
  }

  lemma HandledAdopts(cfg: Config, s: State, s': State)
    requires HandleStep(cfg, s, s')
    ensures s.adopted <= s'.adopted
  {
  }

  lemma CheckKeepsBudgeted(cfg: Config, s: State, base: set<string>, r: string, s': State)
    requires ConfigOk(cfg) && Budgeted(cfg, s, base) && LoopStep(cfg, s, CheckResource(r), s')
    ensures Budgeted(cfg, s', base)
  {
    var u := s.store[s.sched.obj].unit;
    forall k | k in Claims(cfg, base) ensures NonNegative(Claims(cfg, base)[k]) { }
    TotalNonNegative(Claims(cfg, base), u.consumerNamespace, r);
    assert forall ns, x :: Net(cfg, s', base, ns, x) == Net(cfg, s, base, ns, x);
  }

  /** Once every resource is checked, reserving them all stays under the limits. */
  lemma ReserveKeepsBudgeted(cfg: Config, s: State, base: set<string>, g: nat, s': State)
    requires Placed(cfg, s) && Accounted(cfg, s) && Budgeted(cfg, s, base)
    requires s.sched.Filtering? && s.sched.obj in s.store && LoopStep(cfg, s, ReserveUnit(g), s')
    ensures Budgeted(cfg, s', base)
  {
    var u := s.store[s.sched.obj].unit;
    ReserveRecords(cfg, s, g, s');
    HandIsGenuine(cfg, s);
    forall ns, r | Limited(cfg.quotas, ns, r) ensures Net(cfg, s', base, ns, r) <= LimitOf(cfg.quotas, ns, r) {
      assert Net(cfg, s', base, ns, r) == Net(cfg, s, base, ns, r) + Share(ClaimOf(u), ns, r);
    }
  }

  lemma PopKeepsBudgeted(cfg: Config, s: State, base: set<string>, k: string, s': State)
    requires Budgeted(cfg, s, base) && LoopStep(cfg, s, PopUnit(k), s')
    ensures Budgeted(cfg, s', base)
  {
  }

  lemma RestKeepsBudgeted(cfg: Config, s: State, base: set<string>, op: LoopOp, s': State)
    requires Budgeted(cfg, s, base) && LoopStep(cfg, s, op, s')
    requires !op.PopUnit? && !op.CheckResource? && !op.ReserveUnit?
    ensures Budgeted(cfg, s', base)
  {
  }

  lemma LoopKeepsBudgeted(cfg: Config, s: State, base: set<string>, op: LoopOp, s': State)
    requires ConfigOk(cfg) && Placed(cfg, s) && Accounted(cfg, s) && Budgeted(cfg, s, base) && LoopStep(cfg, s, op, s')
    ensures Budgeted(cfg, s', base)
  {
    if op.PopUnit? {
      PopKeepsBudgeted(cfg, s, base, op.k, s');
    } else if op.CheckResource? {
      CheckKeepsBudgeted(cfg, s, base, op.r, s');
    } else if op.ReserveUnit? {
      ReserveKeepsBudgeted(cfg, s, base, op.g, s');
    } else {
      RestKeepsBudgeted(cfg, s, base, op, s');
    }
  }
}
