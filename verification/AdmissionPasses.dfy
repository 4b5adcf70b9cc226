/**
 A whole sequential pass is a run of the protocol: steps of the scheduler loop, with time and
 the users of the API server moving on between its visits.
 */
module AdmissionPasses {
  import opened Units
  import opened QueueSpec
  import opened QuotaLedger
  import opened Admission
  import opened AdmissionTokens
  import opened AdmissionVisits
  import opened Schedulers
  import SchedulingQueues
  import Priority

  // ---------- the world outside the scheduler ----------

  /** What users and time change. */
  datatype World = World(
    api: map<string, QueueUnit>,
    used: set<string>,
    queued: seq<Event>,
    dequeued: seq<Event>,
    now: int)

  function WorldOf(s: State): World
  {
    World(s.api, s.used, s.queued, s.dequeued, s.now)
  }

  function InWorld(s: State, w: World): State
  {
    s.(api := w.api, used := w.used, queued := w.queued, dequeued := w.dequeued, now := w.now)
  }

  ghost predicate UserRun(cfg: Config, states: seq<State>, ops: seq<UserOp>)
  {
    && |states| == |ops| + 1
    && forall i | 0 <= i < |ops| :: UserStep(cfg, states[i], ops[i], states[i + 1])
  }

  ghost predicate UsersLead(cfg: Config, s: State, t: State)
  {
    exists states, ops :: UserRun(cfg, states, ops) && states[0] == s && states[|ops|] == t
  }

  lemma UsersStay(cfg: Config, s: State)
    ensures UsersLead(cfg, s, s)
  {
    var states: seq<State>, ops: seq<UserOp> := [s], [];
    assert UserRun(cfg, states, ops) && states[0] == s && states[|ops|] == s;
  }

  /** What a user's step does depends on the world only. */
  lemma UserStepElsewhere(cfg: Config, s: State, op: UserOp, s': State, a: State)
    requires UserStep(cfg, s, op, s')
    ensures UserStep(cfg, InWorld(a, WorldOf(s)), op, InWorld(a, WorldOf(s')))
  {
  }

  // ---------- the loop and the users together ----------

  predicate OfPass(step: Step)
  {
    step.ByLoop? || step.ByUser?
  }

  ghost predicate PassRun(cfg: Config, states: seq<State>, steps: seq<Step>)
  {
    && |states| == |steps| + 1
    && forall i | 0 <= i < |steps| :: OfPass(steps[i]) && Next(cfg, states[i], steps[i], states[i + 1])
  }

  /** Steps of the loop and of users lead from s to t. */
  ghost predicate Leads(cfg: Config, s: State, t: State)
  {
    exists states, steps :: PassRun(cfg, states, steps) && states[0] == s && states[|steps|] == t
  }

  lemma LeadsThen(cfg: Config, s: State, m: State, step: Step, t: State)
    requires Leads(cfg, s, m) && OfPass(step) && Next(cfg, m, step, t)
    ensures Leads(cfg, s, t)
  {
    var states, steps :| PassRun(cfg, states, steps) && states[0] == s && states[|steps|] == m;
    var longer, more := states + [t], steps + [step];
    assert PassRun(cfg, longer, more) && longer[0] == s && longer[|more|] == t;
  }

  lemma LeadsStays(cfg: Config, s: State)
    ensures Leads(cfg, s, s)
  {
    var states: seq<State>, steps: seq<Step> := [s], [];
    assert PassRun(cfg, states, steps) && states[0] == s && states[|steps|] == s;
  }

  lemma LoopGoesOn(cfg: Config, s: State, m: State, t: State)
    requires Leads(cfg, s, m) && LoopLeads(cfg, m, t)
    ensures Leads(cfg, s, t)
  {
    var states, ops :| LoopRun(cfg, states, ops) && states[0] == m && states[|ops|] == t;
    for i := 0 to |ops|
      invariant Leads(cfg, s, states[i])
    {
      LeadsThen(cfg, s, states[i], ByLoop(ops[i]), states[i + 1]);
    }
  }

  /** The users do in m what led them from a's world to world w, leaving the scheduler as it is. */
  lemma UsersGoOn(cfg: Config, s: State, m: State, a: State, w: World)
    requires Leads(cfg, s, m) && UsersLead(cfg, a, InWorld(a, w)) && WorldOf(m) == WorldOf(a)
    ensures Leads(cfg, s, InWorld(m, w))
  {
    var states, ops :| UserRun(cfg, states, ops) && states[0] == a && states[|ops|] == InWorld(a, w);
    assert InWorld(m, WorldOf(a)) == m;
    for i := 0 to |ops|
      invariant Leads(cfg, s, InWorld(m, WorldOf(states[i])))
    {
      UserStepElsewhere(cfg, states[i], ops[i], states[i + 1], m);
      LeadsThen(cfg, s, InWorld(m, WorldOf(states[i])), ByUser(ops[i]), InWorld(m, WorldOf(states[i + 1])));
    }
  }

  lemma LeadsIsReachable(cfg: Config, s: State, t: State)
    requires Reachable(cfg, s) && Leads(cfg, s, t)
    ensures Reachable(cfg, t)
  {
    var states, steps :| PassRun(cfg, states, steps) && states[0] == s && states[|steps|] == t;
    for i := 0 to |steps|
      invariant Reachable(cfg, states[i])
    {
      NextIsReachable(cfg, states[i], steps[i], states[i + 1]);
    }
  }

  lemma PassStepKeepsPlaced(cfg: Config, s: State, step: Step, s': State)
    requires Placed(cfg, s) && OfPass(step) && Next(cfg, s, step, s')
    ensures Placed(cfg, s') && LoopKept(InWorld(s, WorldOf(s')), s')
  {
    if step.ByLoop? {
      LoopKeepsPlaced(cfg, s, step.loop, s');
      LoopFrame(cfg, s, step.loop, s');
    } else {
      UserKeepsPlaced(cfg, s, step.user, s');
      UserFrame(cfg, s, step.user, s');
    }
  }

  lemma UserFrame(cfg: Config, s: State, op: UserOp, s': State)
    requires UserStep(cfg, s, op, s')
    ensures s' == InWorld(s, WorldOf(s'))
  {
  }

  /** The loop and the users keep the places in order, and change nothing that is neither's. */
  lemma LeadsKeepsPlaced(cfg: Config, s: State, t: State)
    requires Placed(cfg, s) && Leads(cfg, s, t)
    ensures Placed(cfg, t) && LoopKept(InWorld(s, WorldOf(t)), t)
  {
    var states, steps :| PassRun(cfg, states, steps) && states[0] == s && states[|steps|] == t;
    for i := 0 to |steps|
      invariant Placed(cfg, states[i]) && LoopKept(InWorld(s, WorldOf(states[i])), states[i])
    {
      PassStepKeepsPlaced(cfg, states[i], steps[i], states[i + 1]);
    }
  }

  // ---------- a pass ----------

  /** The order a sequential pass takes is one the loop can start a pass with. */
  lemma InOrderIsSorted(queueMap: map<string, SchedulingQueues.SchedulingQueue>, order: seq<string>)
    requires InOrder(queueMap, order)
    ensures SortedOrder(map n | n in queueMap :: queueMap[n].queue, order)
  {
    forall i, j | 0 <= i < j < |order|
      ensures order[i] in queueMap && order[j] in queueMap
      ensures !Priority.Outranks(queueMap[order[j]].queue.priority, queueMap[order[i]].queue.priority)
    {
      assert order[i] in order && order[j] in order;
      Priority.OutranksIff(queueMap[order[j]].queue.priority, queueMap[order[i]].queue.priority);
    }
  }

  /** What the queues of a pass hold, in the pass's order. */
  ghost predicate Holds(s: State, order: seq<string>, views: seq<QueueState<QueueUnitInfo>>)
  {
    && |views| == |order|
    && forall i | 0 <= i < |order| :: order[i] in s.queues && DerefQueue(s, s.queues[order[i]]) == views[i]
  }

  /** The loop is about to visit the n-th queue of order. */
  predicate VisitsNext(s: State, order: seq<string>, n: nat)
  {
    s.sched.Visiting? && n <= |order| && s.sched.rest == order[n..]
  }

  predicate Distinct(order: seq<string>)
  {
    forall i, j | 0 <= i < j < |order| :: order[i] != order[j]
  }

  lemma VisitedHolds(s: State, n: nat, order: seq<string>, views: seq<QueueState<QueueUnitInfo>>, out: Outcome,
                     t: QueueState<QueueUnitInfo>, m: Ledger, s': State)
    requires Holds(s, order, views) && n < |order| && VisitsNext(s, order, n) && Distinct(order)
    requires Visited(s, out, t, m, s')
    ensures Holds(s', order, views[n := t]) && VisitsNext(s', order, n + 1)
    ensures s'.ledger == m && WorldOf(s') == WorldOf(s)
  {
    assert order[n..][0] == order[n] && order[n..][1..] == order[n + 1..];
    forall i | 0 <= i < |order|
      ensures order[i] in s'.queues && DerefQueue(s', s'.queues[order[i]]) == views[n := t][i]
    {
      assert i != n ==> order[i] != order[n];
    }
  }

  /** The units let go among the first n outcomes are in dropped. */
  predicate Dropped(outs: seq<Outcome>, n: nat, dropped: set<string>)
    requires n <= |outs|
  {
    forall i | 0 <= i < n && outs[i].LetGo? :: outs[i].info.name in dropped
  }

  lemma OneMoreOutcome(outs: seq<Outcome>, n: nat, dropped: set<string>, dropped': set<string>)
    requires n < |outs| && Dropped(outs, n, dropped)
    requires dropped' == dropped + (if outs[n].LetGo? then {outs[n].info.name} else {})
    ensures Dropped(outs, n + 1, dropped')
  {
  }

  /** In s the first n queues of order have been visited; the queues hold views, and the ledger is l. */
  ghost predicate Standing(cfg: Config, order: seq<string>, n: nat, views: seq<QueueState<QueueUnitInfo>>, l: Ledger,
                           s: State)
  {
    Placed(cfg, s) && Holds(s, order, views) && VisitsNext(s, order, n) && s.ledger == l
  }

  /** The pass that began in s has got to s' after n visits, with the first n outcomes, in world w. */
  ghost predicate Midway(cfg: Config, s: State, order: seq<string>, n: nat, outs: seq<Outcome>,
                         views: seq<QueueState<QueueUnitInfo>>, l: Ledger, w: World, s': State)
  {
    && n <= |outs| && Leads(cfg, s, s') && Standing(cfg, order, n, views, l, s') && Dropped(outs, n, s'.dropped)
    && WorldOf(s') == w
  }

  lemma PassBegins(cfg: Config, s: State, order: seq<string>, outs: seq<Outcome>,
                   views: seq<QueueState<QueueUnitInfo>>) returns (s': State)
    requires Placed(cfg, s) && s.sched.Idle? && SortedOrder(cfg.queues, order) && Holds(s, order, views)
    ensures Midway(cfg, s, order, 0, outs, views, s.ledger, WorldOf(s), s')
  {
    s' := s.(sched := Visiting(order, s.passes), passes := s.passes + 1);
    LeadsStays(cfg, s);
    LeadsThen(cfg, s, s, ByLoop(StartPass(order)), s');
    PassStepKeepsPlaced(cfg, s, ByLoop(StartPass(order)), s');
    assert order[0..] == order;
  }

  /** The users move the world from w to w'. */
  lemma WorldMoves(cfg: Config, s: State, order: seq<string>, n: nat, outs: seq<Outcome>,
                   views: seq<QueueState<QueueUnitInfo>>, l: Ledger, w: World, s1: State, w': World)
    returns (s2: State)
    requires Midway(cfg, s, order, n, outs, views, l, w, s1) && Placed(cfg, s)
    requires UsersLead(cfg, InWorld(s, w), InWorld(s, w'))
    ensures Midway(cfg, s, order, n, outs, views, l, w', s2)
  {
    s2 := InWorld(s1, w');
    UsersGoOn(cfg, s, s1, InWorld(s, w), w');
    LeadsKeepsPlaced(cfg, s, s2);
    SameScheduler(s1, s2, order, views);
  }

  lemma SameScheduler(s: State, s': State, order: seq<string>, views: seq<QueueState<QueueUnitInfo>>)
    requires Holds(s, order, views) && s'.queues == s.queues && s'.store == s.store
    ensures Holds(s', order, views)
  {
    forall i | 0 <= i < |order|
      ensures order[i] in s'.queues && DerefQueue(s', s'.queues[order[i]]) == views[i]
    {
    }
  }

  lemma NextVisit(cfg: Config, order: seq<string>, n: nat, views: seq<QueueState<QueueUnitInfo>>, l: Ledger, s: State,
                  at: Moment, out: Outcome, t: QueueState<QueueUnitInfo>, m: Ledger) returns (s': State)
    requires Standing(cfg, order, n, views, l, s) && n < |order| && Distinct(order) && MomentOf(s, at)
    requires Visit(views[n], l, cfg.quotas, at, out, t, m)
    ensures LoopLeads(cfg, s, s') && Standing(cfg, order, n + 1, views[n := t], m, s') && WorldOf(s') == WorldOf(s)
    ensures s'.dropped == s.dropped + (if out.LetGo? then {out.info.name} else {})
  {
    assert order[n..][0] == order[n];
    s' := VisitRealised(cfg, s, at, out, t, m);
    LoopLeadsKeepsPlaced(cfg, s, s');
    VisitedHolds(s, n, order, views, out, t, m, s');
  }

  lemma VisitMakesProgress(cfg: Config, s: State, order: seq<string>, n: nat, outs: seq<Outcome>,
                           views: seq<QueueState<QueueUnitInfo>>, l: Ledger, w: World, s1: State,
                           at: Moment, t: QueueState<QueueUnitInfo>, m: Ledger) returns (s2: State)
    requires Midway(cfg, s, order, n, outs, views, l, w, s1) && n < |order| && n < |outs| && Distinct(order)
    requires MomentOf(s1, at) && Visit(views[n], l, cfg.quotas, at, outs[n], t, m)
    ensures Midway(cfg, s, order, n + 1, outs, views[n := t], m, w, s2)
  {
    s2 := NextVisit(cfg, order, n, views, l, s1, at, outs[n], t, m);
    LoopGoesOn(cfg, s, s1, s2);
    OneMoreOutcome(outs, n, s1.dropped, s2.dropped);
  }

  lemma PassEnds(cfg: Config, s: State, order: seq<string>, outs: seq<Outcome>, views: seq<QueueState<QueueUnitInfo>>,
                 l: Ledger, w: World, s1: State) returns (s': State)
    requires Midway(cfg, s, order, |order|, outs, views, l, w, s1)
    ensures Leads(cfg, s, s') && s'.sched.Idle? && s'.ledger == l && Holds(s', order, views) && WorldOf(s') == w
    ensures Dropped(outs, |order|, s'.dropped)
  {
    s' := s1.(sched := Idle);
    LeadsThen(cfg, s, s1, ByLoop(EndPass), s');
    SameScheduler(s1, s', order, views);
  }

  /** The world before visit n, when worlds[i] is the one visit i falls into. */
  function WorldBefore(s: State, worlds: seq<World>, n: nat): World
    requires n <= |worlds|
  {
    if n == 0 then WorldOf(s) else worlds[n - 1]
  }

  /** Each world comes from the one before by what users do, and visit i's moment is one of worlds[i]. */
  ghost predicate Evolves(cfg: Config, s: State, worlds: seq<World>, moments: nat -> Moment)
  {
    forall i | 0 <= i < |worlds| ::
      && UsersLead(cfg, InWorld(s, WorldBefore(s, worlds, i)), InWorld(s, worlds[i]))
      && MomentOf(InWorld(s, worlds[i]), MomentAt(moments, i))
  }

  lemma PassAt(s: seq<QueueState<QueueUnitInfo>>, l: Ledger, quotas: map<string, Quota>, moments: nat -> Moment,
               outs: seq<Outcome>, ledgers: seq<Ledger>, t: seq<QueueState<QueueUnitInfo>>, m: Ledger, n: nat)
    requires Pass(s, l, quotas, moments, outs, ledgers, t, m) && n < |s|
    ensures |t| == |outs| == |s| && |ledgers| == |s| + 1
    ensures Visit(s[n], ledgers[n], quotas, MomentAt(moments, n), outs[n], t[n], ledgers[n + 1])
  {
  }

  lemma WorldAt(cfg: Config, s: State, worlds: seq<World>, moments: nat -> Moment, n: nat)
    requires Evolves(cfg, s, worlds, moments) && n < |worlds|
    ensures UsersLead(cfg, InWorld(s, WorldBefore(s, worlds, n)), InWorld(s, worlds[n]))
    ensures MomentOf(InWorld(s, worlds[n]), MomentAt(moments, n))
  {
  }

  /** The world stands still. */
  lemma StillWorld(cfg: Config, s: State, n: nat, moments: nat -> Moment) returns (worlds: seq<World>)
    requires forall i: nat :: MomentOf(s, MomentAt(moments, i))
    ensures |worlds| == n && Evolves(cfg, s, worlds, moments) && WorldBefore(s, worlds, n) == WorldOf(s)
  {
    worlds := seq(n, i => WorldOf(s));
    UsersStay(cfg, s);
    assert InWorld(s, WorldOf(s)) == s;
  }

  lemma MoveThenVisit(cfg: Config, s: State, order: seq<string>, n: nat, outs: seq<Outcome>,
                      views: seq<QueueState<QueueUnitInfo>>, l: Ledger, w: World, s1: State, w': World,
                      at: Moment, t: QueueState<QueueUnitInfo>, m: Ledger) returns (s2: State)
    requires Midway(cfg, s, order, n, outs, views, l, w, s1) && n < |order| && n < |outs| && Distinct(order)
    requires Placed(cfg, s) && UsersLead(cfg, InWorld(s, w), InWorld(s, w')) && MomentOf(InWorld(s, w'), at)
    requires Visit(views[n], l, cfg.quotas, at, outs[n], t, m)
    ensures Midway(cfg, s, order, n + 1, outs, views[n := t], m, w', s2)
  {
    s2 := WorldMoves(cfg, s, order, n, outs, views, l, w, s1, w');
    s2 := VisitMakesProgress(cfg, s, order, n, outs, views, l, w', s2, at, t, m);
  }

  lemma PassNext(cfg: Config, s: State, order: seq<string>, n: nat, worlds: seq<World>, moments: nat -> Moment,
                 outs: seq<Outcome>, ledgers: seq<Ledger>, views: seq<QueueState<QueueUnitInfo>>,
                 t: seq<QueueState<QueueUnitInfo>>, m: Ledger, s1: State) returns (s2: State)
    requires Placed(cfg, s) && Distinct(order) && n < |order| == |views| == |worlds|
    requires Evolves(cfg, s, worlds, moments) && Pass(views, s.ledger, cfg.quotas, moments, outs, ledgers, t, m)
    requires Midway(cfg, s, order, n, outs, Spliced(t, views, n), ledgers[n], WorldBefore(s, worlds, n), s1)
    ensures Midway(cfg, s, order, n + 1, outs, Spliced(t, views, n + 1), ledgers[n + 1], worlds[n], s2)
  {
    PassAt(views, s.ledger, cfg.quotas, moments, outs, ledgers, t, m, n);
    WorldAt(cfg, s, worlds, moments, n);
    SplicedNext(t, views, n);
    s2 := MoveThenVisit(cfg, s, order, n, outs, Spliced(t, views, n), ledgers[n], WorldBefore(s, worlds, n), s1,
                        worlds[n], MomentAt(moments, n), t[n], ledgers[n + 1]);
  }

  lemma PassRuns(cfg: Config, s: State, order: seq<string>, worlds: seq<World>, moments: nat -> Moment,
                 outs: seq<Outcome>, ledgers: seq<Ledger>, views: seq<QueueState<QueueUnitInfo>>,
                 t: seq<QueueState<QueueUnitInfo>>, m: Ledger, s1: State) returns (s2: State)
    requires Placed(cfg, s) && Distinct(order) && |order| == |views| == |worlds|
    requires Evolves(cfg, s, worlds, moments) && Pass(views, s.ledger, cfg.quotas, moments, outs, ledgers, t, m)
    requires Midway(cfg, s, order, 0, outs, views, s.ledger, WorldOf(s), s1)
    ensures Midway(cfg, s, order, |order|, outs, t, m, WorldBefore(s, worlds, |worlds|), s2)
  {
    SplicedEnds(t, views);
    s2 := s1;
    for n := 0 to |order|
      invariant Midway(cfg, s, order, n, outs, Spliced(t, views, n), ledgers[n], WorldBefore(s, worlds, n), s2)
    {
      s2 := PassNext(cfg, s, order, n, worlds, moments, outs, ledgers, views, t, m, s2);
    }
  }

  /**
   Every sequential pass is a run of the protocol, from StartPass to EndPass: whatever users do
   between its visits, and however the clock moves on, each visit looks up and stamps in the
   world it falls into.
   */
  lemma PassRealised(cfg: Config, s: State, order: seq<string>, worlds: seq<World>, moments: nat -> Moment,
                     outs: seq<Outcome>, ledgers: seq<Ledger>, views: seq<QueueState<QueueUnitInfo>>,
                     t: seq<QueueState<QueueUnitInfo>>, m: Ledger) returns (s': State)
    requires Placed(cfg, s) && s.sched.Idle? && SortedOrder(cfg.queues, order) && Holds(s, order, views)
    requires |worlds| == |order| && Evolves(cfg, s, worlds, moments)
    requires Pass(views, s.ledger, cfg.quotas, moments, outs, ledgers, t, m)
    ensures Leads(cfg, s, s') && s'.sched.Idle? && s'.ledger == m && Holds(s', order, t)
    ensures Dropped(outs, |outs|, s'.dropped) && WorldOf(s') == WorldBefore(s, worlds, |worlds|)
  {
    s' := PassBegins(cfg, s, order, outs, views);
    s' := PassRuns(cfg, s, order, worlds, moments, outs, ledgers, views, t, m, s');
    s' := PassEnds(cfg, s, order, outs, t, m, WorldBefore(s, worlds, |worlds|), s');
  }

  function Spliced<V>(a: seq<V>, b: seq<V>, n: nat): seq<V>
    requires n <= |a| == |b|
  {
    a[..n] + b[n..]
  }

  lemma SplicedEnds<V>(a: seq<V>, b: seq<V>)
    requires |a| == |b|
    ensures Spliced(a, b, 0) == b && Spliced(a, b, |a|) == a
  {
  }

  lemma SplicedNext<V>(a: seq<V>, b: seq<V>, n: nat)
    requires n < |a| == |b|
    ensures Spliced(a, b, n)[n] == b[n] && Spliced(a, b, n + 1) == Spliced(a, b, n)[n := a[n]]
  {
  }
}
