/**
 The scheduler loop of the protocol does nothing that the sequential scheduler does not: left to
 itself, it takes each queue from one visit to the next as a sequential visit does.
 */
module AdmissionRefinement {
  import opened Units
  import opened QueueSpec
  import opened QuotaLedger
  import opened Admission
  import opened AdmissionPlaces
  import opened AdmissionTokens
  import opened AdmissionVisits
  import opened Schedulers

  /** s has queues still to visit, and the next of them exists. */
  predicate AboutToVisit(s: State)
  {
    s.sched.Visiting? && |s.sched.rest| > 0 && s.sched.rest[0] in s.queues
  }

  /** The queue about to be visited, as the infos it holds. */
  function NextView(s: State): QueueState<QueueUnitInfo>
    requires AboutToVisit(s)
  {
    DerefQueue(s, s.queues[s.sched.rest[0]])
  }

  /** From s the loop has come to s' by a sequential visit of the next queue. */
  ghost predicate Ended(cfg: Config, s: State, s': State)
    requires AboutToVisit(s)
  {
    exists at, out, t, m ::
      MomentOf(s, at) && Visit(NextView(s), s.ledger, cfg.quotas, at, out, t, m) && Visited(s, out, t, m, s')
  }

  /** In the middle of Filter: k is in hand, and what has been checked of it fits. */
  ghost predicate Filtered(cfg: Config, s: State, k: string, s': State)
  {
    && Poppable(s, k) && s'.sched.Filtering? && s' == Taken(s, k, s'.sched)
    && s'.sched == Filtering(FrontObj(s, k), s.sched.rest[0], s'.sched.unchecked, s.sched.rest[1..], s.sched.pass)
    && HasHard(cfg.quotas, FrontUnit(s, k).consumerNamespace)
    && forall r | r in FrontUnit(s, k).resource && r !in s'.sched.unchecked :: Fits(cfg, s, FrontUnit(s, k), r)
  }

  /** In the middle of ErrorFunc: k is in hand and was not admissible. */
  ghost predicate Refused(cfg: Config, s: State, k: string, s': State)
  {
    && Poppable(s, k) && s'.sched.Failing? && !Admissible(s.ledger, cfg.quotas, FrontUnit(s, k))
    && s'.sched == Failing(FrontObj(s, k), s.sched.rest[0], s'.sched.stage, s.sched.rest[1..], s.sched.pass)
    && s' == Taken(s, k, s'.sched).(store := s'.store)
    && match s'.sched.stage
       case Bump => s'.store == s.store
       case Lookup => s'.store == Bumped(s, FrontObj(s, k)).store
       case Reenter =>
         && Key(FrontUnit(s, k)) in s.api
         && s'.store == s.store[FrontObj(s, k) :=
              Retried(s.store[FrontObj(s, k)], s.api[Key(FrontUnit(s, k))], s.now)]
  }

  ghost predicate Between(cfg: Config, s: State, s': State)
  {
    exists k :: Filtered(cfg, s, k, s') || Refused(cfg, s, k, s')
  }

  /** The front unit is what the sequential queue may pop. */
  lemma PoppableIsFront(cfg: Config, s: State, k: string)
    requires Placed(cfg, s) && AboutToVisit(s) && Poppable(s, k)
    ensures var info := s.store[FrontObj(s, k)];
            && info.name == k && Key(info.unit) == k && Front(NextView(s), info)
            && k !in s.queues[s.sched.rest[0]].backoff && k !in NextView(s).backoff
  {
    assert At(s, k, Active(s.sched.rest[0]));
    assert OkInfo(cfg, s.used, s.store[FrontObj(s, k)]);
    FrontIsAlone(s, k, s.sched.rest[0]);
  }

  lemma SkipEnds(cfg: Config, s: State, s': State)
    requires Placed(cfg, s) && AboutToVisit(s) && LoopStep(cfg, s, SkipQueue, s')
    ensures Ended(cfg, s, s')
  {
    var at := Moment(map[], s.now);
    assert NextView(s).active == map[];
    assert Visit(NextView(s), s.ledger, cfg.quotas, at, Skipped, NextView(s), s.ledger);
    assert Visited(s, Skipped, NextView(s), s.ledger, s');
    assert MomentOf(s, at);
  }

  /** A visit begins. */
  lemma VisitBegins(cfg: Config, s: State, op: LoopOp, s': State)
    requires Placed(cfg, s) && AboutToVisit(s) && LoopStep(cfg, s, op, s')
    ensures Ended(cfg, s, s') || Between(cfg, s, s')
  {
    if op.SkipQueue? {
      SkipEnds(cfg, s, s');
    } else {
      assert op.PopUnit? && Poppable(s, op.k);
      assert if HasHard(cfg.quotas, FrontUnit(s, op.k).consumerNamespace) then Filtered(cfg, s, op.k, s')
             else Refused(cfg, s, op.k, s');
    }
  }

  /** Reserve succeeds exactly when the unit is admissible. */
  lemma ReserveReaches(cfg: Config, s: State, k: string, m: State, g: nat, s': State)
    requires AboutToVisit(s) && Filtered(cfg, s, k, m) && LoopStep(cfg, m, ReserveUnit(g), s')
    ensures g !in s.flights
    ensures if Admissible(s.ledger, cfg.quotas, FrontUnit(s, k)) then s' == AdmittedState(s, k, g)
            else Refused(cfg, s, k, s')
  {
    var u := FrontUnit(s, k);
    assert FilterOk(s.ledger, QuotaOf(cfg.quotas, u.consumerNamespace), u);
    assert [s.sched.rest[0]] + s.sched.rest[1..] == s.sched.rest;
  }

  lemma ReserveEnds(cfg: Config, s: State, k: string, m: State, g: nat, s': State)
    requires Placed(cfg, s) && AboutToVisit(s) && Filtered(cfg, s, k, m) && LoopStep(cfg, m, ReserveUnit(g), s')
    ensures Ended(cfg, s, s') || Refused(cfg, s, k, s')
  {
    ReserveReaches(cfg, s, k, m, g, s');
    if Admissible(s.ledger, cfg.quotas, FrontUnit(s, k)) {
      AdmissionEnds(cfg, s, k, g);
    }
  }

  lemma AdmissionEnds(cfg: Config, s: State, k: string, g: nat)
    requires Placed(cfg, s) && AboutToVisit(s) && Poppable(s, k) && g !in s.flights
    requires Admissible(s.ledger, cfg.quotas, FrontUnit(s, k))
    ensures Ended(cfg, s, AdmittedState(s, k, g))
  {
    PoppableIsFront(cfg, s, k);
    var info, at := s.store[FrontObj(s, k)], Moment(map[], s.now);
    AdmitVisited(s, info, g);
    assert Visit(NextView(s), s.ledger, cfg.quotas, at, Admitted(info), Popped(NextView(s), k),
                 AfterReserve(s.ledger, info.unit));
    assert MomentOf(s, at);
  }

  /** Filter goes on. */
  lemma FilterGoesOn(cfg: Config, s: State, k: string, m: State, op: LoopOp, s': State)
    requires Placed(cfg, s) && AboutToVisit(s) && Filtered(cfg, s, k, m) && LoopStep(cfg, m, op, s')
    ensures Ended(cfg, s, s') || Between(cfg, s, s')
  {
    if op.ReserveUnit? {
      ReserveEnds(cfg, s, k, m, op.g, s');
    } else {
      assert op.CheckResource?;
      CheckGoesOn(cfg, s, k, m, op.r, s');
    }
  }

  lemma CheckGoesOn(cfg: Config, s: State, k: string, m: State, r: string, s': State)
    requires AboutToVisit(s) && Filtered(cfg, s, k, m) && LoopStep(cfg, m, CheckResource(r), s')
    ensures Filtered(cfg, s, k, s') || Refused(cfg, s, k, s')
  {
    var u := FrontUnit(s, k);
    assert Fits(cfg, m, u, r) <==> Fits(cfg, s, u, r);
    if Fits(cfg, s, u, r) {
      assert Filtered(cfg, s, k, s');
    } else {
      assert !FilterOk(s.ledger, QuotaOf(cfg.quotas, u.consumerNamespace), u);
      assert Refused(cfg, s, k, s');
    }
  }

  lemma LookupFailureEnds(cfg: Config, s: State, k: string, m: State, s': State)
    requires Placed(cfg, s) && AboutToVisit(s) && Refused(cfg, s, k, m) && LoopStep(cfg, m, HandLookup(false), s')
    ensures Ended(cfg, s, s')
  {
    PoppableIsFront(cfg, s, k);
    var info, at := s.store[FrontObj(s, k)], Moment(map[], s.now);
    assert s' == LostState(s, k);
    LoseVisited(s, info);
    assert Visit(NextView(s), s.ledger, cfg.quotas, at, LetGo(info), Popped(NextView(s), k), s.ledger);
    assert MomentOf(s, at);
  }

  /** What ErrorFunc makes of the front unit when the lookup succeeds. */
  function AgainInfo(s: State, k: string): QueueUnitInfo
    requires Poppable(s, k) && Key(FrontUnit(s, k)) in s.api
  {
    Retried(s.store[FrontObj(s, k)], s.api[Key(FrontUnit(s, k))], s.now)
  }

  lemma ReturnReaches(cfg: Config, s: State, k: string, m: State, s': State)
    requires Placed(cfg, s) && AboutToVisit(s) && Refused(cfg, s, k, m) && LoopStep(cfg, m, HandReenter, s')
    ensures Key(FrontUnit(s, k)) in s.api && s' == ReturnedState(s, k, AgainInfo(s, k))
  {
    PoppableIsFront(cfg, s, k);
    var q, o := s.sched.rest[0], FrontObj(s, k);
    assert AddedUnschedulable(Popped(s.queues[q], k), k, o) == Returned(s.queues[q], k, o);
  }

  lemma ReturnEnds(cfg: Config, s: State, k: string)
    requires Placed(cfg, s) && AboutToVisit(s) && Poppable(s, k) && Key(FrontUnit(s, k)) in s.api
    requires !Admissible(s.ledger, cfg.quotas, FrontUnit(s, k))
    ensures Ended(cfg, s, ReturnedState(s, k, AgainInfo(s, k)))
  {
    PoppableIsFront(cfg, s, k);
    var info, j, again := s.store[FrontObj(s, k)], Key(FrontUnit(s, k)), AgainInfo(s, k);
    var at, t := Moment(map[j := s.api[j]], s.now), Returned(NextView(s), k, again);
    ReturnVisited(s, info, again, t);
    assert Visit(NextView(s), s.ledger, cfg.quotas, at, BackedOff(info, again), t, s.ledger);
    assert MomentOf(s, at);
  }

  lemma BumpGoesOn(cfg: Config, s: State, k: string, m: State, s': State)
    requires AboutToVisit(s) && Refused(cfg, s, k, m) && LoopStep(cfg, m, HandBump, s')
    ensures Refused(cfg, s, k, s')
  {
  }

  lemma LookupGoesOn(cfg: Config, s: State, k: string, m: State, s': State)
    requires AboutToVisit(s) && Refused(cfg, s, k, m) && LoopStep(cfg, m, HandLookup(true), s')
    ensures Refused(cfg, s, k, s')
  {
  }

  /** ErrorFunc goes on. */
  lemma ErrorGoesOn(cfg: Config, s: State, k: string, m: State, op: LoopOp, s': State)
    requires Placed(cfg, s) && AboutToVisit(s) && Refused(cfg, s, k, m) && LoopStep(cfg, m, op, s')
    ensures Ended(cfg, s, s') || Refused(cfg, s, k, s')
  {
    if op == HandLookup(false) {
      LookupFailureEnds(cfg, s, k, m, s');
    } else if op == HandReenter {
      ReturnReaches(cfg, s, k, m, s');
      ReturnEnds(cfg, s, k);
    } else if op == HandBump {
      BumpGoesOn(cfg, s, k, m, s');
    } else {
      assert op == HandLookup(true);
      LookupGoesOn(cfg, s, k, m, s');
    }
  }

  lemma VisitGoesOn(cfg: Config, s: State, m: State, op: LoopOp, s': State)
    requires Placed(cfg, s) && AboutToVisit(s) && Between(cfg, s, m) && LoopStep(cfg, m, op, s')
    ensures Ended(cfg, s, s') || Between(cfg, s, s')
  {
    var k :| Filtered(cfg, s, k, m) || Refused(cfg, s, k, m);
    if Filtered(cfg, s, k, m) {
      FilterGoesOn(cfg, s, k, m, op, s');
    } else {
      ErrorGoesOn(cfg, s, k, m, op, s');
    }
  }

  /**
   However the loop gets from one visit to the next on its own, it has visited the queue as the
   sequential scheduler does, with one of its outcomes, and changed nothing else.
   */
  lemma LoopIsVisit(cfg: Config, states: seq<State>, ops: seq<LoopOp>)
    requires LoopRun(cfg, states, ops) && |ops| > 0 && Placed(cfg, states[0]) && AboutToVisit(states[0])
    requires states[|ops|].sched.Visiting? && forall i | 0 < i < |ops| :: !states[i].sched.Visiting?
    ensures Ended(cfg, states[0], states[|ops|])
  {
    VisitBegins(cfg, states[0], ops[0], states[1]);
    for n := 1 to |ops|
      invariant Ended(cfg, states[0], states[n]) || Between(cfg, states[0], states[n])
      invariant n < |ops| ==> Between(cfg, states[0], states[n])
    {
      VisitGoesOn(cfg, states[0], states[n], ops[n], states[n + 1]);
    }
  }
}
