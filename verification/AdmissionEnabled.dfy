/**
 Nothing gets stuck: in every state of every run the loop, each goroutine, the handlers and the
 flusher can go on.
 */
module AdmissionEnabled {
  import opened Orders
  import opened Units
  import opened QuotaLedger
  import opened Admission
  import opened AdmissionPlaces
  import opened AdmissionQuota
  import opened AdmissionTheorems
  import opened AdmissionVisits
  import opened AdmissionOvershoot
  import opened AdmissionCapture
  import Backoff
  import KeyedHeap
  import Priority
  import SchedulingQueues
  import QueueSpec

  // ---------- the handlers and the flusher ----------

  ghost predicate DeliverMay(s: State)
  {
    exists id, s' :: DeliverStep(s, id, s')
  }

  ghost predicate HandleMay(cfg: Config, s: State)
  {
    exists s' :: HandleStep(cfg, s, s')
  }

  ghost predicate FlushMay(cfg: Config, s: State, q: string)
  {
    exists moved, s' :: FlushStep(cfg, s, q, moved, s')
  }

  /** A handler can handle whatever event comes next, and every queue can be flushed at any time. */
  lemma HandlersMay(cfg: Config, s: State, q: string)
    requires ConfigOk(cfg)
    ensures DeliverMay(s) <==> s.queued != []
    ensures HandleMay(cfg, s) <==> s.dequeued != []
    ensures FlushMay(cfg, s, q) <==> q in s.queues
  {
    if s.queued != [] {
      var id := Unused(s.store.Keys);
      assert DeliverStep(s, id, HandleQueued(s.(queued := s.queued[1..]), s.queued[0], id));
    }
    if s.dequeued != [] {
      assert HandleStep(cfg, s, HandleDequeued(cfg, s.(dequeued := s.dequeued[1..]), s.dequeued[0]));
    }
    if q in s.queues {
      var v := DerefQueue(s, s.queues[q]);
      var moved := SchedulingQueues.DoneBy(cfg.initial, cfg.max, v, s.now);
      assert moved <= s.queues[q].backoff.Keys;
      var s' := s.(queues := s.queues[q := QueueSpec.Flushed(s.queues[q], moved)]);
      assert FlushStep(cfg, s, q, moved, s');
    }
  }

  // ---------- the goroutines ----------

  /**
   A goroutine's Dequeue and lookup can fail at any time, and succeed exactly while the unit exists;
   its other steps can always be taken.
   */
  lemma GoroutineMay(cfg: Config, s: State, g: nat)
    requires ConfigOk(cfg) && Reachable(cfg, s) && g in s.flights
    ensures s.flights[g].stage == Dequeuing ==>
              FlightMay(s, g, DequeueFail) && (FlightMay(s, g, DequeueOk) <==> FlightName(s, g) in s.api)
    ensures s.flights[g].stage == Unreserving ==> FlightMay(s, g, UnreserveUnit)
    ensures s.flights[g].stage == Erring(Bump) ==> FlightMay(s, g, FlightBump)
    ensures s.flights[g].stage == Erring(Lookup) ==>
              && FlightMay(s, g, FlightLookup(false))
              && (FlightMay(s, g, FlightLookup(true)) <==> FlightName(s, g) in s.api)
    ensures s.flights[g].stage == Erring(Reenter) ==> exists q :: FlightMay(s, g, FlightReenter(q))
  {
    ReachableInv(cfg, s);
    assert At(s, FlightName(s, g), InFlight(g));
    match s.flights[g].stage
    case Dequeuing => DequeueMay(s, g);
    case Unreserving => UnreserveMay(s, g);
    case Erring(Bump) => BumpMay(s, g);
    case Erring(Lookup) => LookupMay(s, g);
    case Erring(Reenter) => ReenterMay(cfg, s, g);
  }

  lemma DequeueMay(s: State, g: nat)
    requires g in s.flights && s.flights[g].obj in s.store && s.flights[g].stage == Dequeuing
    requires Key(s.store[s.flights[g].obj].unit) == FlightName(s, g)
    ensures FlightMay(s, g, DequeueFail)
    ensures FlightMay(s, g, DequeueOk) <==> FlightName(s, g) in s.api
  {
    var k := FlightName(s, g);
    assert FlightStep(s, g, DequeueFail, s.(flights := s.flights[g := s.flights[g].(stage := Unreserving)]));
    if k in s.api {
      assert FlightStep(s, g, DequeueOk, Put(s, s.api[k].(phase := Dequeued)).(flights := s.flights - {g}));
    }
  }

  lemma UnreserveMay(s: State, g: nat)
    requires g in s.flights && s.flights[g].obj in s.store && s.flights[g].stage == Unreserving
    ensures FlightMay(s, g, UnreserveUnit)
  {
    var s' := s.(ledger := AfterUnreserve(s.ledger, s.store[s.flights[g].obj].unit),
                 flights := s.flights[g := s.flights[g].(stage := Erring(Bump))]);
    assert FlightStep(s, g, UnreserveUnit, s');
  }

  lemma BumpMay(s: State, g: nat)
    requires g in s.flights && s.flights[g].obj in s.store && s.flights[g].stage == Erring(Bump)
    ensures FlightMay(s, g, FlightBump)
  {
    var s' := Bumped(s, s.flights[g].obj).(flights := s.flights[g := s.flights[g].(stage := Erring(Lookup))]);
    assert FlightStep(s, g, FlightBump, s');
  }

  lemma LookupMay(s: State, g: nat)
    requires g in s.flights && s.flights[g].obj in s.store && s.flights[g].stage == Erring(Lookup)
    requires Key(s.store[s.flights[g].obj].unit) == FlightName(s, g)
    ensures FlightMay(s, g, FlightLookup(false))
    ensures FlightMay(s, g, FlightLookup(true)) <==> FlightName(s, g) in s.api
  {
    var o := s.flights[g].obj;
    var lost := s.(flights := s.flights - {g}, dropped := s.dropped + {s.store[o].name});
    assert FlightStep(s, g, FlightLookup(false), lost);
    if FlightName(s, g) in s.api {
      var s' := Refreshed(s, o).(flights := s.flights[g := s.flights[g].(stage := Erring(Reenter))]);
      assert FlightStep(s, g, FlightLookup(true), s');
    }
  }

  /** The queue its unit was popped from is one it can return it to. */
  lemma ReenterMay(cfg: Config, s: State, g: nat)
    requires ConfigOk(cfg) && Reachable(cfg, s) && g in s.flights && s.flights[g].stage == Erring(Reenter)
    ensures exists q :: FlightMay(s, g, FlightReenter(q))
  {
    var states: seq<State>, steps: seq<Step> :| IsRun(cfg, states, steps) && states[|steps|] == s;
    var i := ReturnsWhereLoopHasBeen(cfg, states, steps, |steps|, g);
    var q, pass := states[i].sched.rest[0], s.flights[g].pass;
    assert ComesTo(states[i], steps[i], pass, q);
    assert BeenTo(states, steps, i, |steps|, pass, q);
    assert FlightMay(s, g, FlightReenter(q));
  }

  // ---------- the loop ----------

  /** Some object of m may be popped. */
  lemma {:induction false} LeastExists(m: map<string, QueueUnitInfo>) returns (k: string)
    requires m != map[]
    ensures k in m && KeyedHeap.Least(Priority.QueueLess, m, m[k])
    decreases |m|
  {
    var j :| j in m;
    var rest := m - {j};
    k := j;
    if rest != map[] {
      var l := LeastExists(rest);
      if Before(Priority.QueueLess, rest[l], m[j]) { k := l; }
    }
    forall x | x in m ensures !Before(Priority.QueueLess, m[x], m[k]) {
      if x != j { assert x in rest && rest[x] == m[x]; }
    }
  }

  /** What is left to check of the unit in hand is asked for by it. */
  predicate AsksFor(s: State)
  {
    s.sched.Filtering? && s.sched.obj in s.store ==> s.sched.unchecked <= s.store[s.sched.obj].unit.resource.Keys
  }

  lemma LoopKeepsAsksFor(cfg: Config, s: State, op: LoopOp, s': State)
    requires LoopStep(cfg, s, op, s') && AsksFor(s)
    ensures AsksFor(s')
  {
  }

  lemma NextKeepsAsksFor(cfg: Config, s: State, step: Step, s': State)
    requires Resolved(s) && Single(s) && Next(cfg, s, step, s') && AsksFor(s)
    ensures AsksFor(s')
  {
    assert HandObj(s).Some? ==> HandObj(s).value in s.store;
    match step
    case ByUser(op) => UserKeepsRest(s, op, cfg, s');
    case ByController(op) => ControllerKeepsHand(cfg, s, op, s');
    case ByLoop(op) => LoopKeepsAsksFor(cfg, s, op, s');
    case ByFlight(g, op) => FlightKeepsHand(s, g, op, s');
  }

  lemma ReachableAsksFor(cfg: Config, s: State)
    requires ConfigOk(cfg) && Reachable(cfg, s)
    ensures AsksFor(s)
  {
    var states, steps :| IsRun(cfg, states, steps) && states[|steps|] == s;
    for i := 0 to |steps|
      invariant AsksFor(states[i])
    {
      RunKeepsInv(cfg, states, steps, i);
      NextKeepsAsksFor(cfg, states[i], steps[i], states[i + 1]);
    }
  }

  ghost predicate LoopMay(cfg: Config, s: State, op: LoopOp)
  {
    exists s' :: LoopStep(cfg, s, op, s')
  }

  lemma VisitMay(cfg: Config, s: State) returns (op: LoopOp)
    requires Resolved(s) && s.sched.Visiting?
    ensures LoopMay(cfg, s, op)
  {
    if s.sched.rest == [] {
      op := EndPass;
      assert LoopStep(cfg, s, op, s.(sched := Idle));
    } else {
      var q := s.sched.rest[0];
      if q in s.queues && s.queues[q].active != map[] {
        op := PopMay(cfg, s);
      } else {
        op := SkipQueue;
        assert LoopStep(cfg, s, op, s.(sched := Visiting(s.sched.rest[1..], s.sched.pass)));
      }
    }
  }

  lemma PopMay(cfg: Config, s: State) returns (op: LoopOp)
    requires Resolved(s) && s.sched.Visiting? && s.sched.rest != []
    requires s.sched.rest[0] in s.queues && s.queues[s.sched.rest[0]].active != map[]
    ensures LoopMay(cfg, s, op)
  {
    var q, rest, pass := s.sched.rest[0], s.sched.rest[1..], s.sched.pass;
    var j :| j in s.queues[q].active;
    assert At(s, j, Active(q));
    assert j in Deref(s, s.queues[q].active);
    var k := LeastExists(Deref(s, s.queues[q].active));
    var o := s.queues[q].active[k];
    var u := s.store[o].unit;
    op := PopUnit(k);
    var s' := s.(queues := s.queues[q := QueueSpec.Popped(s.queues[q], k)],
                 sched := if HasHard(cfg.quotas, u.consumerNamespace) then Filtering(o, q, u.resource.Keys, rest, pass)
                          else Failing(o, q, Bump, rest, pass));
    assert LoopStep(cfg, s, op, s');
  }

  lemma FilterMay(cfg: Config, s: State) returns (op: LoopOp)
    requires s.sched.Filtering? && s.sched.obj in s.store && AsksFor(s)
    requires HasHard(cfg.quotas, s.store[s.sched.obj].unit.consumerNamespace)
    ensures LoopMay(cfg, s, op)
  {
    var u, refused := s.store[s.sched.obj].unit, Failing(s.sched.obj, s.sched.q, Bump, s.sched.rest, s.sched.pass);
    if s.sched.unchecked == {} {
      var g := Unused(s.flights.Keys);
      op := ReserveUnit(g);
      var s' := if Key(u) in s.ledger.quRecord then s.(sched := refused)
                else s.(ledger := AfterReserve(s.ledger, u), flights := s.flights[g := Launch(s)],
                        sched := Visiting(s.sched.rest, s.sched.pass));
      assert LoopStep(cfg, s, op, s');
    } else {
      var r :| r in s.sched.unchecked;
      op := CheckResource(r);
      var s' := s.(sched := if Fits(cfg, s, u, r) then s.sched.(unchecked := s.sched.unchecked - {r}) else refused);
      assert LoopStep(cfg, s, op, s');
    }
  }

  lemma ErrorMay(cfg: Config, s: State) returns (op: LoopOp)
    requires s.sched.Failing? && s.sched.obj in s.store
    ensures LoopMay(cfg, s, op)
    ensures s.sched.stage == Lookup ==> op == HandLookup(false)
    ensures s.sched.stage == Lookup ==>
              (LoopMay(cfg, s, HandLookup(true)) <==> Key(s.store[s.sched.obj].unit) in s.api)
  {
    var o := s.sched.obj;
    match s.sched.stage
    case Bump =>
      op := HandBump;
      assert LoopStep(cfg, s, op, Bumped(s, o).(sched := s.sched.(stage := Lookup)));
    case Lookup =>
      op := HandLookup(false);
      assert LoopStep(cfg, s, op, s.(sched := Visiting(s.sched.rest, s.sched.pass),
                                     dropped := s.dropped + {s.store[o].name}));
      if Key(s.store[o].unit) in s.api {
        assert LoopStep(cfg, s, HandLookup(true), Refreshed(s, o).(sched := s.sched.(stage := Reenter)));
      }
    case Reenter =>
      op := HandReenter;
      assert LoopStep(cfg, s, op, Reentered(s, o, s.sched.q).(sched := Visiting(s.sched.rest, s.sched.pass)));
  }

  /** In every state of every run the loop has a next step. */
  lemma LoopIsNeverStuck(cfg: Config, s: State) returns (op: LoopOp)
    requires ConfigOk(cfg) && Reachable(cfg, s)
    ensures LoopMay(cfg, s, op)
  {
    ReachableInv(cfg, s);
    match s.sched
    case Idle =>
      var order := OrderExists(cfg.queues, "");
      op := StartPass(order);
      assert LoopStep(cfg, s, op, s.(sched := Visiting(order, s.passes), passes := s.passes + 1));
    case Visiting(_, _) => op := VisitMay(cfg, s);
    case Filtering(_, _, _, _, _) =>
      ReachableAsksFor(cfg, s);
      op := FilterMay(cfg, s);
    case Failing(_, _, _, _, _) => op := ErrorMay(cfg, s);
  }
}
