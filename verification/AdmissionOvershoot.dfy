/**
 The runs a restart can go wrong in: any set of new units that fits is admitted while none of
 the units from before the start has been reported, and then all of those are. Together with
 AdmissionSources this gives the exact configurations whose quota survives a restart.
 */
module AdmissionOvershoot {
  import opened Orders
  import opened Units
  import opened QueueSpec
  import opened QuotaLedger
  import opened Admission
  import opened AdmissionPlaces
  import opened AdmissionTokens
  import opened AdmissionLedger
  import opened AdmissionVisits
  import opened AdmissionPasses
  import opened AdmissionTheorems
  import opened AdmissionRestart
  import opened AdmissionSources
  import opened Schedulers

  // ---------- an order for the passes ----------

  /** A queue of lowest priority; h only if there is no other. */
  lemma Lowest(queues: map<string, Queue>, h: string) returns (n: string)
    requires queues != map[]
    ensures n in queues && forall q | q in queues :: RankIn(queues, q) >= RankIn(queues, n)
    ensures n == h ==> forall q | q in queues && q != h :: RankIn(queues, q) > RankIn(queues, h)
  {
    n :| n in queues;
    var todo := queues.Keys - {n};
    while todo != {}
      invariant todo <= queues.Keys && n in queues && n !in todo
      invariant forall q | q in queues.Keys - todo :: RankIn(queues, q) >= RankIn(queues, n)
      invariant n == h ==> forall q | q in queues.Keys - todo && q != h :: RankIn(queues, q) > RankIn(queues, h)
    {
      var q :| q in todo;
      if RankIn(queues, q) < RankIn(queues, n) || (RankIn(queues, q) == RankIn(queues, n) && n == h) {
        n := q;
      }
      todo := todo - {q};
    }
  }

  /** h comes before the other queues of its priority. */
  predicate LeadsItsRank(queues: map<string, Queue>, order: seq<string>, h: string)
  {
    forall i, j | 0 <= i < j < |order| && order[j] == h :: RankIn(queues, order[i]) > RankIn(queues, h)
  }

  /** There is an order for a pass, and one in which a given queue leads its priority. */
  lemma {:induction false} OrderExists(queues: map<string, Queue>, h: string) returns (order: seq<string>)
    ensures SortedOrder(queues, order) && LeadsItsRank(queues, order, h)
    decreases |queues|
  {
    if queues == map[] {
      order := [];
    } else {
      var n := Lowest(queues, h);
      var before := OrderExists(queues - {n}, h);
      LowestLast(queues, n, before, h);
      order := before + [n];
    }
  }

  lemma LowestLast(queues: map<string, Queue>, n: string, before: seq<string>, h: string)
    requires n in queues && (forall q | q in queues :: RankIn(queues, q) >= RankIn(queues, n))
    requires n == h ==> forall q | q in queues && q != h :: RankIn(queues, q) > RankIn(queues, h)
    requires SortedOrder(queues - {n}, before) && LeadsItsRank(queues - {n}, before, h)
    ensures SortedOrder(queues, before + [n]) && LeadsItsRank(queues, before + [n], h)
  {
    var others, order := queues - {n}, before + [n];
    OneMoreName(queues, n, before);
    RanksFall(others, before);
    RanksFall(queues, order);
  }

  lemma OneMoreName(queues: map<string, Queue>, n: string, before: seq<string>)
    requires n in queues && forall q :: q in before <==> q in queues - {n}
    requires forall i, j | 0 <= i < j < |before| :: before[i] != before[j]
    ensures var order := before + [n];
            && (forall q :: q in order <==> q in queues)
            && (forall i, j | 0 <= i < j < |order| :: order[i] != order[j])
    ensures forall i | 0 <= i < |before| ::
              before[i] in queues && before[i] != n &&
              RankIn(queues, before[i]) == RankIn(queues - {n}, before[i])
  {
    assert forall i | 0 <= i < |before| :: before[i] in queues - {n};
    assert forall q :: q in before + [n] <==> q in before || q == n;
  }

  // ---------- admitting new units before anything is reported ----------

  function EmptyQueues(queues: map<string, Queue>): map<string, QueueState<ObjId>>
  {
    map q | q in queues :: QueueState(map[], map[])
  }

  /** Every event still to be handled on the dequeued side reports a unit from before the start. */
  predicate Reports(cfg: Config, events: seq<Event>)
  {
    forall i | 0 <= i < |events| ::
      Key(events[i].unit) in cfg.boot && events[i] == OnAdd(cfg.boot[Key(events[i].unit)])
  }

  /** Exactly the given new units are recorded, nothing is queued, and no report has been handled. */
  ghost predicate Ready(cfg: Config, s: State, keys: set<string>)
  {
    && Reachable(cfg, s) && s.sched.Idle? && s.queued == [] && s.queues == EmptyQueues(cfg.queues)
    && s.ledger.quRecord == keys && s.used == cfg.boot.Keys + keys
    && Reports(cfg, s.dequeued) && forall k | k in cfg.boot :: AddPending(s.dequeued, k)
  }

  lemma Begin(cfg: Config) returns (s: State)
    requires ConfigOk(cfg)
    ensures Ready(cfg, s, {})
  {
    var events := Reporting(cfg);
    s := State(cfg.boot, cfg.boot.Keys, [], events, EmptyQueues(cfg.queues), map[], EMPTY_LEDGER, Idle, map[], 0, 0,
               {}, map[], {}, {});
    forall k | k in cfg.boot ensures OnAdd(cfg.boot[k]) in events {
      var i :| 0 <= i < |events| && events[i].OnAdd? && Key(events[i].unit) == k;
      assert events[i] == OnAdd(cfg.boot[k]);
    }
    assert Init(cfg, s);
    InitIsReachable(cfg, s);
  }

  lemma Reporting(cfg: Config) returns (events: seq<Event>)
    requires ConfigOk(cfg)
    ensures Reports(cfg, events) && forall k | k in cfg.boot :: AddPending(events, k)
  {
    events := [];
    var todo := cfg.boot.Keys;
    while todo != {}
      invariant todo <= cfg.boot.Keys && Reports(cfg, events)
      invariant forall k | k in cfg.boot.Keys - todo :: AddPending(events, k)
    {
      var k :| k in todo;
      AppendLaws(events, OnAdd(cfg.boot[k]));
      events := events + [OnAdd(cfg.boot[k])];
      todo := todo - {k};
    }
  }

  /** A new unit is created. */
  lemma Submit(cfg: Config, s: State, u: QueueUnit) returns (s': State)
    requires OkApi(cfg, s.used, s.api) && Key(u) !in s.used && Genuine(cfg, u) && u.phase == Enqueued && s.queued == []
    ensures UserStep(cfg, s, CreateUnit(u), s')
    ensures s' == s.(api := s.api[Key(u) := u], used := s.used + {Key(u)}, queued := [OnAdd(u)])
  {
    s' := Put(s, u).(used := s.used + {Key(u)});
    assert Key(u) !in s.api;
    assert s'.queued == [OnAdd(u)] && s'.dequeued == s.dequeued;
  }

  /** Its add event is handled. */
  lemma Enqueue(s: State, u: QueueUnit) returns (id: ObjId, s': State)
    requires s.queued == [OnAdd(u)] && u.consumerNamespace in s.queues
    requires s.queues[u.consumerNamespace] == QueueState(map[], map[])
    ensures DeliverStep(s, id, s')
    ensures s' == s.(queued := [], store := s.store[id := NewQueueUnitInfo(u, s.now)], firstSeen := s'.firstSeen,
                     queues := s.queues[u.consumerNamespace := QueueState(map[Key(u) := id], map[])])
  {
    id := Unused(s.store.Keys);
    s' := HandleQueued(s.(queued := []), OnAdd(u), id);
    assert s.queued[1..] == [];
  }

  const EMPTY: QueueState<QueueUnitInfo> := QueueState(map[], map[])

  /** What the queues hold when only u is waiting, as info. */
  function OneWaiting(order: seq<string>, q: string, info: QueueUnitInfo): (views: seq<QueueState<QueueUnitInfo>>)
    ensures |views| == |order|
  {
    seq(|order|, i requires 0 <= i < |order| =>
      if order[i] == q then QueueState(map[info.name := info], map[]) else EMPTY)
  }

  function NoneWaiting(order: seq<string>): (views: seq<QueueState<QueueUnitInfo>>)
    ensures |views| == |order|
  {
    seq(|order|, i => EMPTY)
  }

  /** The sequential pass that pops the one unit waiting: it is admitted if it can be, and lost if not. */
  lemma PassDecides(order: seq<string>, q: string, info: QueueUnitInfo, l: Ledger, quotas: map<string, Quota>,
                    moments: nat -> Moment) returns (outs: seq<Outcome>, ledgers: seq<Ledger>)
    requires q in order && (forall i, j | 0 <= i < j < |order| :: order[i] != order[j])
    requires forall i: nat :: MomentAt(moments, i).lookup == map[]
    ensures var ok := Admissible(l, quotas, info.unit);
            && Pass(OneWaiting(order, q, info), l, quotas, moments, outs, ledgers, NoneWaiting(order),
                    if ok then AfterReserve(l, info.unit) else l)
            && (!ok ==> LetGo(info) in outs)
  {
    var n :| 0 <= n < |order| && order[n] == q;
    var ok := Admissible(l, quotas, info.unit);
    var out, m := if ok then Admitted(info) else LetGo(info), if ok then AfterReserve(l, info.unit) else l;
    outs := seq(|order|, i => if i == n then out else Skipped);
    ledgers := seq(|order| + 1, i => if i <= n then l else m);
    forall i | 0 <= i < |order|
      ensures Visit(OneWaiting(order, q, info)[i], ledgers[i], quotas, MomentAt(moments, i), outs[i],
                    NoneWaiting(order)[i], ledgers[i + 1])
    {
      assert i != n ==> order[i] != q;
    }
    assert outs[n] == out;
  }

  lemma NothingWaits(cfg: Config, s: State, order: seq<string>)
    requires Resolved(s) && SortedOrder(cfg.queues, order) && Holds(s, order, NoneWaiting(order))
    requires s.queues.Keys == cfg.queues.Keys
    ensures s.queues == EmptyQueues(cfg.queues)
  {
    forall q | q in s.queues ensures s.queues[q] == QueueState(map[], map[]) {
      NothingWaitsIn(s, order, q);
    }
  }

  lemma NothingWaitsIn(s: State, order: seq<string>, q: string)
    requires Resolved(s) && q in order && Holds(s, order, NoneWaiting(order))
    ensures q in s.queues && s.queues[q] == QueueState(map[], map[])
  {
    var i :| 0 <= i < |order| && order[i] == q;
    HoldsAt(s, order, NoneWaiting(order), i);
    EmptyView(s, q);
  }

  lemma HoldsAt(s: State, order: seq<string>, views: seq<QueueState<QueueUnitInfo>>, i: nat)
    requires Holds(s, order, views) && i < |order|
    ensures order[i] in s.queues && DerefQueue(s, s.queues[order[i]]) == views[i]
  {
  }

  lemma EmptyView(s: State, q: string)
    requires Resolved(s) && q in s.queues && DerefQueue(s, s.queues[q]) == EMPTY
    ensures s.queues[q] == QueueState(map[], map[])
  {
    SameKeys(s, q);
    assert s.queues[q].active.Keys == {} && s.queues[q].backoff.Keys == {};
  }

  /** A pass decides about the one unit waiting. */
  lemma Decide(cfg: Config, s: State, u: QueueUnit, id: ObjId) returns (s': State)
    requires Placed(cfg, s) && s.sched.Idle? && u.consumerNamespace in cfg.queues
    requires id in s.store && s.store[id] == NewQueueUnitInfo(u, s.now)
    requires s.queues == EmptyQueues(cfg.queues)[u.consumerNamespace := QueueState(map[Key(u) := id], map[])]
    ensures Leads(cfg, s, s') && WorldOf(s') == WorldOf(s) && Placed(cfg, s') && s'.sched.Idle?
    ensures if Admissible(s.ledger, cfg.quotas, u) then s'.ledger == AfterReserve(s.ledger, u) else Key(u) in s'.dropped
    ensures s'.queues.Keys == cfg.queues.Keys ==> s'.queues == EmptyQueues(cfg.queues)
  {
    var q, info := u.consumerNamespace, s.store[id];
    var order := OrderExists(cfg.queues, q);
    var moments := (i: nat) => Moment(map[], s.now);
    var outs, ledgers := PassDecides(order, q, info, s.ledger, cfg.quotas, moments);
    HoldsOne(cfg, s, order, q, Key(u), id);
    var worlds := StillWorld(cfg, s, |order|, moments);
    s' := PassRealised(cfg, s, order, worlds, moments, outs, ledgers, OneWaiting(order, q, info), NoneWaiting(order),
                       if Admissible(s.ledger, cfg.quotas, u) then AfterReserve(s.ledger, u) else s.ledger);
    LeadsKeepsPlaced(cfg, s, s');
    if s'.queues.Keys == cfg.queues.Keys {
      NothingWaits(cfg, s', order);
    }
  }

  lemma HoldsOne(cfg: Config, s: State, order: seq<string>, q: string, k: string, id: ObjId)
    requires SortedOrder(cfg.queues, order) && q in cfg.queues && id in s.store && s.store[id].name == k
    requires s.queues == EmptyQueues(cfg.queues)[q := QueueState(map[k := id], map[])]
    ensures Holds(s, order, OneWaiting(order, q, s.store[id]))
  {
    forall i | 0 <= i < |order|
      ensures order[i] in s.queues && DerefQueue(s, s.queues[order[i]]) == OneWaiting(order, q, s.store[id])[i]
    {
      assert order[i] in cfg.queues;
    }
  }

  /** A new unit that fits beside those recorded passes Filter and is not recorded. */
  lemma FittingIsAdmissible(cfg: Config, s: State, keys: set<string>, u: QueueUnit)
    requires ConfigOk(cfg) && Reachable(cfg, s) && s.ledger.quRecord == keys
    requires Key(u) !in keys && FitTogether(cfg, keys + {Key(u)}) && Genuine(cfg, u) && HasHard(cfg.quotas, u.namespace)
    ensures Admissible(s.ledger, cfg.quotas, u)
  {
    ReachableInv(cfg, s);
    var ns := u.namespace;
    forall r | r in u.resource && Limited(cfg.quotas, ns, r)
      ensures Reserved(s.ledger, ns, r) + u.resource[r] <= LimitOf(cfg.quotas, ns, r)
    {
      OneMoreClaim(cfg, keys, Key(u), ns, r);
    }
  }

  /** A new unit comes to wait in its queue. */
  lemma Arrives(cfg: Config, s: State, u: QueueUnit) returns (id: ObjId, s': State)
    requires ConfigOk(cfg) && Reachable(cfg, s) && s.queued == [] && s.queues == EmptyQueues(cfg.queues)
    requires Key(u) !in s.used && Genuine(cfg, u) && u.phase == Enqueued && u.consumerNamespace in cfg.queues
    ensures Reachable(cfg, s')
    ensures s' == s.(api := s.api[Key(u) := u], used := s.used + {Key(u)}, firstSeen := s'.firstSeen,
                     store := s.store[id := NewQueueUnitInfo(u, s.now)],
                     queues := s.queues[u.consumerNamespace := QueueState(map[Key(u) := id], map[])])
  {
    ReachableInv(cfg, s);
    var s1 := Submit(cfg, s, u);
    NextIsReachable(cfg, s, ByUser(CreateUnit(u)), s1);
    id, s' := Enqueue(s1, u);
    NextIsReachable(cfg, s1, ByController(DeliverQueued(id)), s');
  }

  lemma IsDecided(cfg: Config, s: State, u: QueueUnit, id: ObjId) returns (s': State)
    requires ConfigOk(cfg) && Reachable(cfg, s) && s.sched.Idle? && u.consumerNamespace in cfg.queues
    requires id in s.store && s.store[id] == NewQueueUnitInfo(u, s.now)
    requires s.queues == EmptyQueues(cfg.queues)[u.consumerNamespace := QueueState(map[Key(u) := id], map[])]
    ensures Reachable(cfg, s') && LoopKept(s, s') && s'.sched.Idle? && s'.queues == EmptyQueues(cfg.queues)
    ensures if Admissible(s.ledger, cfg.quotas, u) then s'.ledger == AfterReserve(s.ledger, u) else Key(u) in s'.dropped
  {
    ReachableInv(cfg, s);
    s' := Decide(cfg, s, u, id);
    LeadsIsReachable(cfg, s, s');
    ReachableInv(cfg, s');
    LeadsKeepsPlaced(cfg, s, s');
  }

  lemma NewUnit(cfg: Config, k: string) returns (u: QueueUnit)
    requires Creatable(cfg, k)
    ensures Key(u) == k && Genuine(cfg, u) && u.phase == Enqueued
  {
    var any :| Genuine(cfg, any) && Key(any) == k;
    u := any.(phase := Enqueued);
  }

  /** One more unit is admitted. */
  lemma AdmitOneMore(cfg: Config, s: State, keys: set<string>, k: string) returns (s': State)
    requires ConfigOk(cfg) && Ready(cfg, s, keys)
    requires Schedulable(cfg, k) && k !in keys && FitTogether(cfg, keys + {k})
    ensures Ready(cfg, s', keys + {k})
  {
    var u := NewUnit(cfg, k);
    FittingIsAdmissible(cfg, s, keys, u);
    var id, s1 := Arrives(cfg, s, u);
    s' := IsDecided(cfg, s1, u, id);
  }

  /** Any set of new units that fits together is admitted. */
  lemma AdmitAll(cfg: Config, keys: set<string>) returns (s: State)
    requires ConfigOk(cfg) && AllSchedulable(cfg, keys) && FitTogether(cfg, keys)
    ensures Ready(cfg, s, keys)
  {
    s := Begin(cfg);
    var done := {};
    while done != keys
      invariant done <= keys && Ready(cfg, s, done)
      decreases keys - done
    {
      var k :| k in keys && k !in done;
      forall ns, r | Limited(cfg.quotas, ns, r)
        ensures Total(Claims(cfg, done + {k}), ns, r) <= LimitOf(cfg.quotas, ns, r)
      {
        MoreClaimsMore(cfg, done + {k}, keys, ns, r);
      }
      s := AdmitOneMore(cfg, s, done, k);
      done := done + {k};
    }
  }

  // ---------- and then the reports arrive ----------

  /** The new units are recorded, and so is every unit from before the start whose report has been handled. */
  ghost predicate Reported(cfg: Config, s: State, keys: set<string>)
  {
    && Reachable(cfg, s) && Reports(cfg, s.dequeued) && keys <= s.ledger.quRecord <= keys + cfg.boot.Keys
    && forall k | k in cfg.boot :: k in s.ledger.quRecord || AddPending(s.dequeued, k)
  }

  lemma ReportNext(cfg: Config, s: State, keys: set<string>) returns (s': State)
    requires Reported(cfg, s, keys) && s.dequeued != []
    ensures Reported(cfg, s', keys) && |s'.dequeued| < |s.dequeued|
  {
    s' := Report(cfg, s);
    NextIsReachable(cfg, s, ByController(DeliverDequeued), s');
  }

  /** One report is handled. */
  lemma Report(cfg: Config, s: State) returns (s': State)
    requires Reports(cfg, s.dequeued) && s.dequeued != []
    ensures HandleStep(cfg, s, s') && s'.dequeued == s.dequeued[1..] && Reports(cfg, s'.dequeued)
    ensures s'.ledger.quRecord == s.ledger.quRecord + {Key(s.dequeued[0].unit)} && Key(s.dequeued[0].unit) in cfg.boot
    ensures forall k | AddPending(s.dequeued, k) :: AddPending(s'.dequeued, k) || k == Key(s.dequeued[0].unit)
  {
    s' := HandleDequeued(cfg, s.(dequeued := s.dequeued[1..]), s.dequeued[0]);
    BeheadLaws(s.dequeued);
    assert forall i | 0 <= i < |s'.dequeued| :: s'.dequeued[i] == s.dequeued[i + 1];
  }

  lemma ReportAll(cfg: Config, s: State, keys: set<string>) returns (s': State)
    requires ConfigOk(cfg) && Ready(cfg, s, keys)
    ensures Reachable(cfg, s') && s'.ledger.quRecord == keys + cfg.boot.Keys
  {
    s' := s;
    while s'.dequeued != []
      invariant Reported(cfg, s', keys)
      decreases |s'.dequeued|
    {
      s' := ReportNext(cfg, s', keys);
    }
  }

  /** So if some set of new units fits, but not beside those from before the start, a run exceeds a limit. */
  lemma NoRoomBreaksQuota(cfg: Config, keys: set<string>) returns (s: State)
    requires ConfigOk(cfg) && AllSchedulable(cfg, keys) && FitTogether(cfg, keys)
    requires !FitTogether(cfg, keys + cfg.boot.Keys)
    ensures Reachable(cfg, s) && !WithinLimits(cfg, s)
  {
    s := AdmitAll(cfg, keys);
    s := ReportAll(cfg, s, keys);
    ReachableInv(cfg, s);
    var ns, r :| Limited(cfg.quotas, ns, r) &&
                 Total(Claims(cfg, keys + cfg.boot.Keys), ns, r) > LimitOf(cfg.quotas, ns, r);
    assert Reserved(s.ledger, ns, r) == Total(Claims(cfg, s.ledger.quRecord), ns, r);
  }

  /**
   Quota safety, exactly: no limit is exceeded in any state of any run if and only if every set
   of new units that fits into the quota also fits beside all the units from before the start.
   */
  lemma QuotaSafeIff(cfg: Config)
    requires ConfigOk(cfg)
    ensures (forall s | Reachable(cfg, s) :: WithinLimits(cfg, s)) <==> LeavesRoom(cfg)
  {
    if LeavesRoom(cfg) {
      forall s | Reachable(cfg, s) ensures WithinLimits(cfg, s) { RoomKeepsQuota(cfg, s); }
    } else {
      var keys :| AllSchedulable(cfg, keys) && FitTogether(cfg, keys) && !FitTogether(cfg, keys + cfg.boot.Keys);
      var s := NoRoomBreaksQuota(cfg, keys);
    }
  }

  // ---------- an example ----------

  const ONE_CPU: ResourceList := map["cpu" := 1]

  /** One cpu, held by a unit dequeued before the start. */
  const TIGHT := Config((k: string) => Claim("n", ONE_CPU), map["n" := Hard(ONE_CPU)], map["n" := Queue("n", None)],
                        0, 0, map["n/a" := QueueUnit("n", "a", "n", None, ONE_CPU, Dequeued)])

  lemma OneUnitTotal(k: string, ns: string, r: string)
    ensures Total(Claims(TIGHT, {k}), ns, r) == Share(Claim("n", ONE_CPU), ns, r)
  {
    assert Claims(TIGHT, {}) == map[];
    OneMoreClaim(TIGHT, {}, k, ns, r);
    assert {} + {k} == {k};
  }

  lemma TightIsOk()
    ensures ConfigOk(TIGHT) && TIGHT.boot.Keys == {"n/a"} && Schedulable(TIGHT, "n/b")
  {
    assert Key(TIGHT.boot["n/a"]) == "n/a";
    assert "n/a"[2] != "n/b"[2];
    var u := QueueUnit("n", "b", "n", None, ONE_CPU, Enqueued);
    assert Genuine(TIGHT, u) && Key(u) == "n/b";
  }

  /** A run that exceeds the limit, though what was dequeued before the start fits. */
  lemma RestartOvershoot() returns (states: seq<State>, steps: seq<Step>)
    ensures ConfigOk(TIGHT) && FitTogether(TIGHT, TIGHT.boot.Keys) && IsRun(TIGHT, states, steps)
    ensures !WithinLimits(TIGHT, states[|steps|])
  {
    TightIsOk();
    forall ns, r
      ensures Total(Claims(TIGHT, {"n/a"}), ns, r) == Share(Claim("n", ONE_CPU), ns, r)
      ensures Total(Claims(TIGHT, {"n/b"}), ns, r) == Share(Claim("n", ONE_CPU), ns, r)
    {
      OneUnitTotal("n/a", ns, r);
      OneUnitTotal("n/b", ns, r);
    }
    OneMoreClaim(TIGHT, {"n/b"}, "n/a", "n", "cpu");
    var s := NoRoomBreaksQuota(TIGHT, {"n/b"});
    states, steps :| IsRun(TIGHT, states, steps) && states[|steps|] == s;
  }
}
