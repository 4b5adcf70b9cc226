/**
 The sequential pass and the protocol describe the same scheduler: every visit of a queue is
 a sequence of steps of the scheduler loop.
 */
module AdmissionVisits {
  import opened Units
  import opened QueueSpec
  import opened QuotaLedger
  import opened Admission
  import opened AdmissionPlaces
  import opened AdmissionTokens
  import opened Schedulers
  import KeyedHeap
  import Priority

  /** The loop alone leads from the first state to the last. */
  ghost predicate LoopRun(cfg: Config, states: seq<State>, ops: seq<LoopOp>)
  {
    && |states| == |ops| + 1
    && forall i | 0 <= i < |ops| :: LoopStep(cfg, states[i], ops[i], states[i + 1])
  }

  ghost predicate LoopLeads(cfg: Config, s: State, t: State)
  {
    exists states, ops :: LoopRun(cfg, states, ops) && states[0] == s && states[|ops|] == t
  }

  lemma LoopStays(cfg: Config, s: State)
    ensures LoopLeads(cfg, s, s)
  {
    var states: seq<State>, ops: seq<LoopOp> := [s], [];
    assert LoopRun(cfg, states, ops) && states[0] == s && states[|ops|] == s;
  }

  lemma LoopThen(cfg: Config, s: State, m: State, op: LoopOp, t: State)
    requires LoopLeads(cfg, s, m) && LoopStep(cfg, m, op, t)
    ensures LoopLeads(cfg, s, t)
  {
    var states, ops :| LoopRun(cfg, states, ops) && states[0] == s && states[|ops|] == m;
    var longer, more := states + [t], ops + [op];
    assert LoopRun(cfg, longer, more) && longer[0] == s && longer[|more|] == t;
  }

  lemma LoopIsReachable(cfg: Config, s: State, t: State)
    requires Reachable(cfg, s) && LoopLeads(cfg, s, t)
    ensures Reachable(cfg, t)
  {
    var states, ops :| LoopRun(cfg, states, ops) && states[0] == s && states[|ops|] == t;
    for i := 0 to |ops|
      invariant Reachable(cfg, states[i])
    {
      NextIsReachable(cfg, states[i], ByLoop(ops[i]), states[i + 1]);
    }
  }

  // ---------- the pieces of a visit ----------

  /** k may be popped from the queue to be visited next. */
  ghost predicate Poppable(s: State, k: string)
  {
    && s.sched.Visiting? && |s.sched.rest| > 0
    && var q := s.sched.rest[0];
    && q in s.queues && k in s.queues[q].active && s.queues[q].active[k] in s.store
    && KeyedHeap.Least(Priority.QueueLess, Deref(s, s.queues[q].active), s.store[s.queues[q].active[k]])
  }

  function FrontObj(s: State, k: string): ObjId
    requires Poppable(s, k)
  {
    s.queues[s.sched.rest[0]].active[k]
  }

  function FrontUnit(s: State, k: string): QueueUnit
    requires Poppable(s, k)
  {
    s.store[FrontObj(s, k)].unit
  }

  /** The goroutine that takes it over: it may see this queue and those visited later. */
  function FrontFlight(s: State, k: string): Flight
    requires Poppable(s, k)
  {
    Flight(FrontObj(s, k), Dequeuing, s.sched.rest, s.sched.pass)
  }

  function Taken(s: State, k: string, sched: Sched): State
    requires Poppable(s, k)
  {
    s.(queues := s.queues[s.sched.rest[0] := Popped(s.queues[s.sched.rest[0]], k)], sched := sched)
  }

  /** Filter's loop, one resource at a time, when everything fits. */
  lemma ChecksPass(cfg: Config, s: State, m: State)
    requires m.sched.Filtering? && m.sched.obj in m.store
    requires var u := m.store[m.sched.obj].unit;
             FilterOk(m.ledger, QuotaOf(cfg.quotas, u.consumerNamespace), u) && m.sched.unchecked <= u.resource.Keys
    requires LoopLeads(cfg, s, m)
    ensures LoopLeads(cfg, s, m.(sched := m.sched.(unchecked := {})))
    decreases m.sched.unchecked
  {
    if m.sched.unchecked != {} {
      var r :| r in m.sched.unchecked;
      var n := m.(sched := m.sched.(unchecked := m.sched.unchecked - {r}));
      assert Fits(cfg, m, m.store[m.sched.obj].unit, r);
      LoopThen(cfg, s, m, CheckResource(r), n);
      ChecksPass(cfg, s, n);
    }
  }

  /** A unit that is admissible is popped, checked and reserved, and a goroutine g takes it over. */
  lemma AdmitPath(cfg: Config, s: State, k: string, g: nat)
    requires Poppable(s, k) && Admissible(s.ledger, cfg.quotas, FrontUnit(s, k)) && g !in s.flights
    ensures LoopLeads(cfg, s, Taken(s, k, Visiting(s.sched.rest[1..], s.sched.pass))
                                .(ledger := AfterReserve(s.ledger, FrontUnit(s, k)),
                                  flights := s.flights[g := FrontFlight(s, k)]))
  {
    var q, rest, pass := s.sched.rest[0], s.sched.rest[1..], s.sched.pass;
    var o, u := FrontObj(s, k), FrontUnit(s, k);
    var m := Taken(s, k, Filtering(o, q, u.resource.Keys, rest, pass));
    LoopStays(cfg, s);
    LoopThen(cfg, s, s, PopUnit(k), m);
    ChecksPass(cfg, s, m);
    var n := m.(sched := m.sched.(unchecked := {}));
    assert [q] + rest == s.sched.rest;
    LoopThen(cfg, s, n, ReserveUnit(g), n.(ledger := AfterReserve(s.ledger, u),
                                           flights := s.flights[g := FrontFlight(s, k)],
                                           sched := Visiting(rest, pass)));
  }

  /** One that is not ends in the scheduler's hand, about to go through ErrorFunc. */
  lemma RefusePath(cfg: Config, s: State, k: string)
    requires Poppable(s, k) && !Admissible(s.ledger, cfg.quotas, FrontUnit(s, k))
    ensures LoopLeads(cfg, s,
                      Taken(s, k, Failing(FrontObj(s, k), s.sched.rest[0], Bump, s.sched.rest[1..], s.sched.pass)))
  {
    var q, rest, pass := s.sched.rest[0], s.sched.rest[1..], s.sched.pass;
    var o, u := FrontObj(s, k), FrontUnit(s, k);
    var t := Taken(s, k, Failing(o, q, Bump, rest, pass));
    LoopStays(cfg, s);
    if !HasHard(cfg.quotas, u.consumerNamespace) {
      LoopThen(cfg, s, s, PopUnit(k), t);
    } else {
      var m := Taken(s, k, Filtering(o, q, u.resource.Keys, rest, pass));
      LoopThen(cfg, s, s, PopUnit(k), m);
      if r :| r in u.resource && !Fits(cfg, m, u, r) {
        LoopThen(cfg, s, m, CheckResource(r), t);
      } else {
        ChecksPass(cfg, s, m);
        var n := m.(sched := m.sched.(unchecked := {}));
        var g := Unused(s.flights.Keys);
        LoopThen(cfg, s, n, ReserveUnit(g), t);
      }
    }
  }

  /** A number not in use. */
  lemma Unused(used: set<nat>) returns (n: nat)
    ensures n !in used
  {
    n := 0;
    ghost var below: set<nat> := {};
    while n in used
      invariant below <= used && forall i :: i in below <==> 0 <= i < n
      decreases used - below
    {
      below := below + {n};
      n := n + 1;
    }
  }

  /** ErrorFunc with a lookup that succeeds. */
  lemma ReturnPath(cfg: Config, s: State, m: State)
    requires m.sched.Failing? && m.sched.stage == Bump && m.sched.obj in m.store && m.sched.q in m.queues
    requires Key(m.store[m.sched.obj].unit) in m.api && LoopLeads(cfg, s, m)
    ensures var o, q := m.sched.obj, m.sched.q;
            var again := Retried(m.store[o], m.api[Key(m.store[o].unit)], m.now);
            LoopLeads(cfg, s, m.(store := m.store[o := again],
                                 queues := m.queues[q := AddedUnschedulable(m.queues[q], again.name, o)],
                                 sched := Visiting(m.sched.rest, m.sched.pass)))
  {
    var o := m.sched.obj;
    var m1 := Bumped(m, o).(sched := m.sched.(stage := Lookup));
    LoopThen(cfg, s, m, HandBump, m1);
    var m2 := Refreshed(m1, o).(sched := m1.sched.(stage := Reenter));
    LoopThen(cfg, s, m1, HandLookup(true), m2);
    var m3 := Reentered(m2, o, m.sched.q).(sched := Visiting(m.sched.rest, m.sched.pass));
    LoopThen(cfg, s, m2, HandReenter, m3);
    assert m2.store == m.store[o := m2.store[o]];
  }

  /** ErrorFunc with a lookup that fails. */
  lemma LosePath(cfg: Config, s: State, m: State)
    requires m.sched.Failing? && m.sched.stage == Bump && m.sched.obj in m.store && LoopLeads(cfg, s, m)
    ensures var o := m.sched.obj;
            LoopLeads(cfg, s, Bumped(m, o).(sched := Visiting(m.sched.rest, m.sched.pass),
                                            dropped := m.dropped + {m.store[o].name}))
  {
    var o := m.sched.obj;
    var m1 := Bumped(m, o).(sched := m.sched.(stage := Lookup));
    LoopThen(cfg, s, m, HandBump, m1);
    LoopThen(cfg, s, m1, HandLookup(false), m1.(sched := Visiting(m.sched.rest, m.sched.pass),
                                                dropped := m.dropped + {m.store[o].name}));
  }

  // ---------- a visit is a sequence of loop steps ----------

  /** Every object but o is as it was. */
  predicate OthersKept(s: State, o: ObjId, s': State)
  {
    forall p | p in s.store && p != o :: p in s'.store && s'.store[p] == s.store[p]
  }

  lemma DerefKept(s: State, o: ObjId, s': State, m: map<string, ObjId>)
    requires OthersKept(s, o, s') && forall j | j in m :: m[j] in s.store && m[j] != o
    ensures Deref(s', m) == Deref(s, m)
  {
  }

  lemma SameKeys(s: State, q: string)
    requires Resolved(s) && q in s.queues
    ensures Deref(s, s.queues[q].active).Keys == s.queues[q].active.Keys
    ensures Deref(s, s.queues[q].backoff).Keys == s.queues[q].backoff.Keys
  {
    assert forall k | k in s.queues[q].active :: At(s, k, Active(q));
    assert forall k | k in s.queues[q].backoff :: At(s, k, Backing(q));
  }

  /** No other heap entry refers to the object of the unit to be popped. */
  lemma FrontIsAlone(s: State, k: string, x: string)
    requires Resolved(s) && Single(s) && Poppable(s, k) && x in s.queues
    ensures forall j | j in s.queues[x].active :: s.queues[x].active[j] in s.store
    ensures forall j | j in s.queues[x].backoff ::
              s.queues[x].backoff[j] in s.store && s.queues[x].backoff[j] != FrontObj(s, k)
    ensures forall j | j in s.queues[x].active && (j != k || x != s.sched.rest[0]) ::
              s.queues[x].active[j] != FrontObj(s, k)
    ensures k !in s.queues[x].backoff
  {
    assert At(s, k, Active(s.sched.rest[0]));
    forall j | j in s.queues[x].active
      ensures s.queues[x].active[j] in s.store &&
              (s.queues[x].active[j] == FrontObj(s, k) ==> j == k && x == s.sched.rest[0])
    {
      assert At(s, j, Active(x));
    }
    forall j | j in s.queues[x].backoff
      ensures s.queues[x].backoff[j] in s.store && s.queues[x].backoff[j] != FrontObj(s, k) && j != k
    {
      assert At(s, j, Backing(x));
    }
  }

  /** What the queues stand for once the popped unit's object may have changed. */
  lemma PoppedViews(s: State, k: string, s': State)
    requires Resolved(s) && Single(s) && Poppable(s, k) && OthersKept(s, FrontObj(s, k), s')
    ensures forall x | x in s.queues && x != s.sched.rest[0] ::
              DerefQueue(s', s.queues[x]) == DerefQueue(s, s.queues[x])
    ensures var q := s.sched.rest[0];
            DerefQueue(s', Popped(s.queues[q], k)) == Popped(DerefQueue(s, s.queues[q]), k)
  {
    var q, o := s.sched.rest[0], FrontObj(s, k);
    forall x | x in s.queues && x != q ensures DerefQueue(s', s.queues[x]) == DerefQueue(s, s.queues[x]) {
      FrontIsAlone(s, k, x);
      DerefKept(s, o, s', s.queues[x].active);
      DerefKept(s, o, s', s.queues[x].backoff);
    }
    FrontIsAlone(s, k, q);
    DerefKept(s, o, s', s.queues[q].active - {k});
    DerefKept(s, o, s', s.queues[q].backoff);
  }

  /** The lookup of a moment that falls into state s answers from its API server, if it answers. */
  predicate MomentOf(s: State, at: Moment)
  {
    at.now == s.now && forall k | k in at.lookup :: k in s.api && at.lookup[k] == s.api[k]
  }

  /** s' is s after its next queue was visited with outcome out, leaving t in that queue and m in the ledger. */
  ghost predicate Visited(s: State, out: Outcome, t: QueueState<QueueUnitInfo>, m: Ledger, s': State)
    requires s.sched.Visiting? && |s.sched.rest| > 0
  {
    var q := s.sched.rest[0];
    && s' == s.(queues := s'.queues, store := s'.store, ledger := m, flights := s'.flights, dropped := s'.dropped,
                sched := Visiting(s.sched.rest[1..], s.sched.pass))
    && s'.queues.Keys == s.queues.Keys
    && (q in s.queues ==> DerefQueue(s', s'.queues[q]) == t)
    && (forall x | x in s.queues && x != q :: DerefQueue(s', s'.queues[x]) == DerefQueue(s, s.queues[x]))
    && s'.dropped == s.dropped + (if out.LetGo? then {out.info.name} else {})
    && if out.Admitted? then Launched(s, out.info, s') else s'.flights == s.flights
  }

  /** One new goroutine holds info. */
  ghost predicate Launched(s: State, info: QueueUnitInfo, s': State)
  {
    exists g :: && g !in s.flights && g in s'.flights && s'.flights == s.flights[g := s'.flights[g]]
                && s'.flights[g].stage == Dequeuing && s'.flights[g].obj in s'.store
                && s'.store[s'.flights[g].obj] == info
  }

  lemma FrontIsPoppable(s: State, info: QueueUnitInfo)
    requires Resolved(s) && s.sched.Visiting? && |s.sched.rest| > 0 && s.sched.rest[0] in s.queues
    requires Front(DerefQueue(s, s.queues[s.sched.rest[0]]), info)
    ensures Poppable(s, info.name) && s.store[FrontObj(s, info.name)] == info
  {
    assert At(s, info.name, Active(s.sched.rest[0]));
  }

  /**
   Each outcome of a sequential visit is realised by steps of the loop: from any state of the
   protocol in which the queues hold what the visit finds, to one in which they hold what it
   leaves, and nothing else has changed.
   */
  lemma VisitRealised(cfg: Config, s: State, at: Moment, out: Outcome, t: QueueState<QueueUnitInfo>, m: Ledger)
    returns (s': State)
    requires Placed(cfg, s) && s.sched.Visiting? && |s.sched.rest| > 0 && s.sched.rest[0] in s.queues && MomentOf(s, at)
    requires Visit(DerefQueue(s, s.queues[s.sched.rest[0]]), s.ledger, cfg.quotas, at, out, t, m)
    ensures LoopLeads(cfg, s, s') && Visited(s, out, t, m, s')
  {
    if out.Skipped? {
      s' := SkipRealised(cfg, s, t);
    } else if out.Admitted? {
      s' := AdmitRealised(cfg, s, out.info, t, m);
    } else {
      FrontIsPoppable(s, out.info);
      RefusePath(cfg, s, out.info.name);
      if out.BackedOff? {
        ReturnLeads(cfg, s, at, out.info);
        ReturnVisited(s, out.info, out.again, t);
        s' := ReturnedState(s, out.info.name, out.again);
      } else {
        FrontIsAlone(s, out.info.name, s.sched.rest[0]);
        s' := LoseRealised(cfg, s, out.info, t);
      }
    }
  }

  lemma SkipRealised(cfg: Config, s: State, t: QueueState<QueueUnitInfo>) returns (s': State)
    requires Resolved(s) && s.sched.Visiting? && |s.sched.rest| > 0 && s.sched.rest[0] in s.queues
    requires DerefQueue(s, s.queues[s.sched.rest[0]]) == t && t.active == map[]
    ensures LoopLeads(cfg, s, s') && Visited(s, Skipped, t, s.ledger, s')
  {
    var q := s.sched.rest[0];
    SameKeys(s, q);
    assert s.queues[q].active.Keys == {};
    s' := s.(sched := Visiting(s.sched.rest[1..], s.sched.pass));
    LoopStays(cfg, s);
    LoopThen(cfg, s, s, SkipQueue, s');
  }

  lemma AdmitRealised(cfg: Config, s: State, info: QueueUnitInfo, t: QueueState<QueueUnitInfo>, m: Ledger)
    returns (s': State)
    requires Placed(cfg, s) && s.sched.Visiting? && |s.sched.rest| > 0 && s.sched.rest[0] in s.queues
    requires var v := DerefQueue(s, s.queues[s.sched.rest[0]]);
             Front(v, info) && Admissible(s.ledger, cfg.quotas, info.unit) && t == Popped(v, info.name)
    requires m == AfterReserve(s.ledger, info.unit)
    ensures LoopLeads(cfg, s, s') && Visited(s, Admitted(info), t, m, s')
  {
    var k := info.name;
    FrontIsPoppable(s, info);
    var g := Unused(s.flights.Keys);
    AdmitPath(cfg, s, k, g);
    s' := AdmittedState(s, k, g);
    AdmitVisited(s, info, g);
  }

  /** The state after the front unit k was admitted and goroutine g has taken it over. */
  function AdmittedState(s: State, k: string, g: nat): State
    requires Poppable(s, k)
  {
    Taken(s, k, Visiting(s.sched.rest[1..], s.sched.pass))
      .(ledger := AfterReserve(s.ledger, FrontUnit(s, k)), flights := s.flights[g := FrontFlight(s, k)])
  }

  lemma AdmitVisited(s: State, info: QueueUnitInfo, g: nat)
    requires Resolved(s) && Single(s) && Poppable(s, info.name) && s.store[FrontObj(s, info.name)] == info
    requires g !in s.flights
    ensures Visited(s, Admitted(info), Popped(DerefQueue(s, s.queues[s.sched.rest[0]]), info.name),
                    AfterReserve(s.ledger, info.unit), AdmittedState(s, info.name, g))
  {
    var s' := AdmittedState(s, info.name, g);
    PoppedViews(s, info.name, s');
    assert g in s'.flights && s'.flights[g].obj == FrontObj(s, info.name);
  }

  /** The state after the popped unit k has gone through ErrorFunc and is backing off as again. */
  function ReturnedState(s: State, k: string, again: QueueUnitInfo): State
    requires Poppable(s, k)
  {
    var q, o := s.sched.rest[0], FrontObj(s, k);
    s.(store := s.store[o := again], queues := s.queues[q := Returned(s.queues[q], k, o)],
       sched := Visiting(s.sched.rest[1..], s.sched.pass))
  }

  lemma ReturnLeads(cfg: Config, s: State, at: Moment, info: QueueUnitInfo)
    requires Placed(cfg, s) && Poppable(s, info.name) && s.store[FrontObj(s, info.name)] == info && MomentOf(s, at)
    requires Key(info.unit) in at.lookup
    requires LoopLeads(cfg, s, Taken(s, info.name, Failing(FrontObj(s, info.name), s.sched.rest[0], Bump,
                                                           s.sched.rest[1..], s.sched.pass)))
    ensures LoopLeads(cfg, s, ReturnedState(s, info.name, Retried(info, at.lookup[Key(info.unit)], at.now)))
  {
    var k, q := info.name, s.sched.rest[0];
    var n := Taken(s, k, Failing(FrontObj(s, k), q, Bump, s.sched.rest[1..], s.sched.pass));
    ReturnPath(cfg, s, n);
    FrontIsAlone(s, k, q);
    assert n.queues[q := AddedUnschedulable(n.queues[q], k, FrontObj(s, k))]
        == s.queues[q := Returned(s.queues[q], k, FrontObj(s, k))];
  }

  lemma ReturnVisited(s: State, info: QueueUnitInfo, again: QueueUnitInfo, t: QueueState<QueueUnitInfo>)
    requires Resolved(s) && Single(s) && Poppable(s, info.name)
    requires t == Returned(DerefQueue(s, s.queues[s.sched.rest[0]]), info.name, again)
    ensures Visited(s, BackedOff(info, again), t, s.ledger, ReturnedState(s, info.name, again))
  {
    var k, q := info.name, s.sched.rest[0];
    var s' := ReturnedState(s, k, again);
    PoppedViews(s, k, s');
    ReturnedView(s', Popped(s.queues[q], k), k, FrontObj(s, k));
  }

  function Returned<V>(q: QueueState<V>, k: string, v: V): QueueState<V>
  {
    QueueState(q.active - {k}, q.backoff[k := v])
  }

  lemma ReturnedView(s: State, q: QueueState<ObjId>, k: string, o: ObjId)
    requires o in s.store && k !in q.active
    ensures DerefQueue(s, Returned(q, k, o)) == Returned(DerefQueue(s, q), k, s.store[o])
  {
    assert q.active - {k} == q.active;
  }

  lemma LoseRealised(cfg: Config, s: State, info: QueueUnitInfo, t: QueueState<QueueUnitInfo>) returns (s': State)
    requires Placed(cfg, s) && Poppable(s, info.name) && s.store[FrontObj(s, info.name)] == info
    requires t == Popped(DerefQueue(s, s.queues[s.sched.rest[0]]), info.name)
    requires LoopLeads(cfg, s, Taken(s, info.name, Failing(FrontObj(s, info.name), s.sched.rest[0], Bump,
                                                           s.sched.rest[1..], s.sched.pass)))
    ensures LoopLeads(cfg, s, s') && Visited(s, LetGo(info), t, s.ledger, s')
  {
    var k, q := info.name, s.sched.rest[0];
    var o := FrontObj(s, k);
    var n := Taken(s, k, Failing(o, q, Bump, s.sched.rest[1..], s.sched.pass));
    LosePath(cfg, s, n);
    s' := LostState(s, k);
    LoseVisited(s, info);
  }

  /** The state after the front unit k has gone through ErrorFunc and was not found. */
  function LostState(s: State, k: string): State
    requires Poppable(s, k)
  {
    Taken(s, k, Visiting(s.sched.rest[1..], s.sched.pass))
      .(store := Bumped(s, FrontObj(s, k)).store, dropped := s.dropped + {s.store[FrontObj(s, k)].name})
  }

  lemma LoseVisited(s: State, info: QueueUnitInfo)
    requires Resolved(s) && Single(s) && Poppable(s, info.name) && s.store[FrontObj(s, info.name)] == info
    ensures Visited(s, LetGo(info), Popped(DerefQueue(s, s.queues[s.sched.rest[0]]), info.name), s.ledger,
                    LostState(s, info.name))
  {
    PoppedViews(s, info.name, LostState(s, info.name));
  }

  // ---------- what the loop keeps ----------

  lemma LoopLeadsKeepsPlaced(cfg: Config, s: State, t: State)
    requires Placed(cfg, s) && LoopLeads(cfg, s, t)
    ensures Placed(cfg, t)
  {
    var states, ops :| LoopRun(cfg, states, ops) && states[0] == s && states[|ops|] == t;
    for i := 0 to |ops|
      invariant Placed(cfg, states[i])
    {
      LoopKeepsPlaced(cfg, states[i], ops[i], states[i + 1]);
    }
  }

  /** What the loop leaves alone. */
  predicate LoopKept(s: State, t: State)
  {
    t == s.(queues := t.queues, store := t.store, ledger := t.ledger, sched := t.sched, flights := t.flights,
            passes := t.passes, dropped := t.dropped)
  }
}
