/** Which new units the scheduler can ever dequeue. */
module AdmissionDequeue {
  import opened Units
  import opened QuotaLedger
  import opened Admission
  import opened AdmissionLedger
  import opened AdmissionTheorems
  import opened AdmissionRestart
  import opened AdmissionSources
  import opened AdmissionOvershoot
  import opened AdmissionStray
  import opened Schedulers
  import QueueSpec

  predicate IsDequeued(s: State, k: string)
  {
    k in s.api && s.api[k].phase == Dequeued
  }

  lemma DequeuedIsRecorded(cfg: Config, s: State, k: string)
    requires ConfigOk(cfg) && Reachable(cfg, s) && IsDequeued(s, k) && k !in cfg.boot
    ensures k in s.ledger.quRecord
  {
    ReachableInv(cfg, s);
    assert Due(cfg, s, k);
  }

  lemma NewOnesFit(cfg: Config, s: State)
    requires ConfigOk(cfg) && Reachable(cfg, s)
    ensures FitTogether(cfg, s.ledger.quRecord - cfg.boot.Keys)
  {
    ReachableInv(cfg, s);
    NewUnitsFit(cfg, s);
  }

  /** A new unit that is Dequeued is recorded, so it has a quota and fits into it alone. */
  lemma DequeuedFits(cfg: Config, s: State, k: string)
    requires ConfigOk(cfg) && Reachable(cfg, s) && IsDequeued(s, k) && k !in cfg.boot
    ensures Schedulable(cfg, k) && FitTogether(cfg, {k})
  {
    DequeuedIsRecorded(cfg, s, k);
    ReachableIsSourced(cfg, s);
    NewOnesFit(cfg, s);
    forall ns, r | Limited(cfg.quotas, ns, r) ensures Total(Claims(cfg, {k}), ns, r) <= LimitOf(cfg.quotas, ns, r) {
      MoreClaimsMore(cfg, {k}, s.ledger.quRecord - cfg.boot.Keys, ns, r);
    }
  }

  /** The unit's own queue is visited first thing in a pass that gets to it. */
  lemma AdmitAtHome(cfg: Config, s: State, u: QueueUnit, id: ObjId) returns (g: nat, s': State)
    requires ConfigOk(cfg) && Reachable(cfg, s) && s.sched.Idle? && u.consumerNamespace in cfg.queues
    requires id in s.store && s.store[id] == NewQueueUnitInfo(u, s.now) && Admissible(s.ledger, cfg.quotas, u)
    requires s.queues == EmptyQueues(cfg.queues)[u.consumerNamespace := QueueSpec.QueueState(map[Key(u) := id], map[])]
    ensures Reachable(cfg, s') && s'.api == s.api && s'.store == s.store
    ensures g in s'.flights && s'.flights[g].obj == id && s'.flights[g].stage == Dequeuing
  {
    var h := u.consumerNamespace;
    var order := OrderExists(cfg.queues, h);
    var n: nat :| n < |order| && order[n] == h;
    OnlyHomeIsActive(cfg, s, order, n, Key(u), id);
    var s1 := GoTo(cfg, s, order, n);
    assert order[n..][0] == h;
    g, s' := AdmitOnly(cfg, s1, u, id);
  }

  /** A unit that can be admitted on its own is dequeued in some run. */
  lemma GetsDequeued(cfg: Config, k: string) returns (s: State)
    requires ConfigOk(cfg) && Schedulable(cfg, k) && FitTogether(cfg, {k})
    ensures Reachable(cfg, s) && IsDequeued(s, k)
  {
    var s0 := Begin(cfg);
    var u := NewUnit(cfg, k);
    assert {} + {k} == {k};
    FittingIsAdmissible(cfg, s0, {}, u);
    var id, s1 := Arrives(cfg, s0, u);
    var g, s2 := AdmitAtHome(cfg, s1, u, id);
    s := Put(s2, s2.api[k].(phase := Dequeued)).(flights := s2.flights - {g});
    NextIsReachable(cfg, s2, ByFlight(g, DequeueOk), s);
  }

  /**
   Exactly the new units that have a queue and a quota, and fit into the quota alone, can be
   Dequeued in some state of some run.
   */
  lemma DequeuedIff(cfg: Config, k: string)
    requires ConfigOk(cfg) && k !in cfg.boot
    ensures (exists s :: Reachable(cfg, s) && IsDequeued(s, k)) <==> Schedulable(cfg, k) && FitTogether(cfg, {k})
  {
    forall s | Reachable(cfg, s) && IsDequeued(s, k) ensures Schedulable(cfg, k) && FitTogether(cfg, {k}) {
      DequeuedFits(cfg, s, k);
    }
    if Schedulable(cfg, k) && FitTogether(cfg, {k}) {
      var s := GetsDequeued(cfg, k);
    }
  }
}
