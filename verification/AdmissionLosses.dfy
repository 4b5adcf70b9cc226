/** How the scheduler loses sight of a unit: a failed lookup drops it for good. */
module AdmissionLosses {
  import opened Units
  import opened QuotaLedger
  import opened Admission
  import opened AdmissionPlaces
  import opened AdmissionTokens
  import opened AdmissionLedger
  import opened AdmissionProgress
  import opened AdmissionTheorems
  import opened AdmissionSources
  import opened AdmissionOvershoot
  import opened Schedulers

  // ---------- dropped ----------

  /** k is enqueued at the API server and the scheduler will never see it again. */
  ghost predicate Lost(s: State, k: string)
  {
    && k in s.api && s.api[k].phase != Dequeued
    && !Somewhere(s, k) && !AddPending(s.queued, k)
  }

  lemma DroppedIsLost(cfg: Config, s: State, k: string)
    requires ConfigOk(cfg) && Reachable(cfg, s) && k in s.dropped && k in s.api && s.api[k].phase != Dequeued
    ensures Lost(s, k)
  {
    ReachableInv(cfg, s);
    assert Past(cfg, s, k);
  }

  /** A goroutine's dequeue fails, if it has not failed yet. */
  lemma DequeueFails(cfg: Config, s: State, g: nat) returns (s': State)
    requires Reachable(cfg, s) && g in s.flights && s.flights[g].obj in s.store && HoldsReservation(s.flights[g])
    ensures Reachable(cfg, s')
    ensures s' == s.(flights := s.flights[g := s.flights[g].(stage := Unreserving)])
  {
    s' := s.(flights := s.flights[g := s.flights[g].(stage := Unreserving)]);
    if s.flights[g].stage == Dequeuing {
      NextIsReachable(cfg, s, ByFlight(g, DequeueFail), s');
    } else {
      assert s.flights[g := s.flights[g]] == s.flights;
    }
  }

  /** It gives its reservation up and enters ErrorFunc. */
  lemma GiveUp(cfg: Config, s: State, g: nat) returns (s': State)
    requires Reachable(cfg, s) && g in s.flights && s.flights[g].obj in s.store && s.flights[g].stage == Unreserving
    ensures Reachable(cfg, s') && s'.api == s.api && s'.queued == s.queued
    ensures s'.sched == s.sched && g in s'.flights && s'.flights[g] == s.flights[g].(stage := Erring(Lookup))
    ensures s'.flights[g].obj in s'.store && s'.store[s'.flights[g].obj].name == FlightName(s, g)
  {
    var o := s.flights[g].obj;
    var s1 := s.(ledger := AfterUnreserve(s.ledger, s.store[o].unit),
                 flights := s.flights[g := s.flights[g].(stage := Erring(Bump))]);
    NextIsReachable(cfg, s, ByFlight(g, UnreserveUnit), s1);
    s' := Bumped(s1, o).(flights := s1.flights[g := s1.flights[g].(stage := Erring(Lookup))]);
    NextIsReachable(cfg, s1, ByFlight(g, FlightBump), s');
  }

  /** Its dequeue and its lookup both fail. */
  lemma FlightIsLost(cfg: Config, s: State, g: nat) returns (s': State)
    requires ConfigOk(cfg) && Reachable(cfg, s) && g in s.flights && HoldsReservation(s.flights[g])
    ensures Reachable(cfg, s') && s'.api == s.api && FlightName(s, g) in s'.dropped
  {
    ReachableInv(cfg, s);
    var s1 := DequeueFails(cfg, s, g);
    s1 := GiveUp(cfg, s1, g);
    s' := s1.(flights := s1.flights - {g}, dropped := s1.dropped + {FlightName(s, g)});
    NextIsReachable(cfg, s1, ByFlight(g, FlightLookup(false)), s');
  }

  /** A recorded new unit that is not Dequeued and has no report pending is in flight. */
  lemma RecordedIsFlying(cfg: Config, s: State, k: string) returns (g: nat)
    requires ConfigOk(cfg) && Reachable(cfg, s) && k in s.ledger.quRecord && k !in cfg.boot
    requires NotDequeued(s.api, k) && Reports(cfg, s.dequeued)
    ensures g in s.flights && HoldsReservation(s.flights[g]) && FlightName(s, g) == k
  {
    ReachableInv(cfg, s);
    assert Due(cfg, s, k) && !Claimed(s.api, s.dequeued, k);
    g :| ReservingAt(s, k, g);
  }

  /** Every new unit whose namespace has a queue can be lost, in some run of every configuration. */
  lemma AnyUnitCanBeLost(cfg: Config, k: string) returns (s: State)
    requires ConfigOk(cfg) && Creatable(cfg, k) && k !in cfg.boot && ClaimFor(cfg, k).namespace in cfg.queues
    ensures Reachable(cfg, s) && Lost(s, k)
  {
    var s0 := Begin(cfg);
    var u := NewUnit(cfg, k);
    var id, s1 := Arrives(cfg, s0, u);
    s := IsDecided(cfg, s1, u, id);
    if Admissible(s1.ledger, cfg.quotas, u) {
      var g := RecordedIsFlying(cfg, s, k);
      s := FlightIsLost(cfg, s, g);
    }
    DroppedIsLost(cfg, s, k);
  }
}
