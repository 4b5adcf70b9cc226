/**
 The admission protocol of pkg/scheduler/scheduler.go and pkg/controller/eventhandler.go as
 a step system: one scheduler loop, any number of dequeue goroutines, two event handlers
 that each see their events in order, an abstract API server and its users. Each locked
 method is one step; Filter reads the ledger one resource at a time.

 Unit infos are objects in a store: the heaps, the scheduler and the goroutines hold
 references, so a change through one reference is seen through all.
 */
module Admission {
  import opened Orders
  import opened Units
  import opened QueueSpec
  import opened QuotaLedger
  import KeyedHeap
  import Priority
  import Backoff
  import SchedulingQueues

  type ObjId = nat

  /**
   What stays fixed in a run. claim gives the namespace and resources a key stands for:
   names are not reused and a unit's resources do not change. boot holds the units that
   are Dequeued already when the scheduler starts.
   */
  datatype Config = Config(
    claim: string -> Claim,
    quotas: map<string, Quota>,
    queues: map<string, Queue>,
    initial: int,
    max: int,
    boot: map<string, QueueUnit>)

  function ClaimFor(cfg: Config, k: string): Claim
  {
    cfg.claim(k)
  }

  /** A snapshot of a unit that agrees with its key and is consumed in its own namespace. */
  predicate Genuine(cfg: Config, u: QueueUnit)
  {
    ClaimOf(u) == ClaimFor(cfg, Key(u)) && u.consumerNamespace == u.namespace
  }

  ghost predicate ConfigOk(cfg: Config)
  {
    && (forall k :: NonNegative(ClaimFor(cfg, k)))
    && LimitsOk(cfg.quotas)
    && Backoff.IsInt64(cfg.initial) && Backoff.IsInt64(cfg.max)
    && forall k | k in cfg.boot :: Key(cfg.boot[k]) == k && Genuine(cfg, cfg.boot[k]) && cfg.boot[k].phase == Dequeued
  }

  // ---------- state ----------

  datatype Event = OnAdd(unit: QueueUnit) | OnUpdate(unit: QueueUnit) | OnDelete(unit: QueueUnit)

  /** ErrorFunc: bump attempts and timestamp, look the unit up, put it in a backoff heap. */
  datatype ErrorStage = Bump | Lookup | Reenter

  /** The scheduler loop; rest holds the queues still to visit in this pass. */
  datatype Sched =
    | Idle
    | Visiting(rest: seq<string>, pass: nat)
    | Filtering(obj: ObjId, q: string, unchecked: set<string>, rest: seq<string>, pass: nat)
    | Failing(obj: ObjId, q: string, stage: ErrorStage, rest: seq<string>, pass: nat)

  datatype FlightStage = Dequeuing | Unreserving | Erring(stage: ErrorStage)

  /** A dequeue goroutine. It may re-enter any queue of the pass that started it. */
  datatype Flight = Flight(obj: ObjId, stage: FlightStage, ahead: seq<string>, pass: nat)

  datatype State = State(
    api: map<string, QueueUnit>,
    used: set<string>,
    queued: seq<Event>,
    dequeued: seq<Event>,
    queues: map<string, QueueState<ObjId>>,
    store: map<ObjId, QueueUnitInfo>,
    ledger: Ledger,
    sched: Sched,
    flights: map<nat, Flight>,
    passes: nat,
    now: int,
    // history: boot units whose add event has been handled, when each key was first added
    // to a queue, which keys an update event has given a new info, and which keys were let
    // go because ErrorFunc's lookup failed
    adopted: set<string>,
    firstSeen: map<string, int>,
    renewed: set<string>,
    dropped: set<string>)

  ghost predicate Init(cfg: Config, s: State)
  {
    && s.api == cfg.boot && s.used == cfg.boot.Keys
    && s.queued == []
    && (forall i | 0 <= i < |s.dequeued| ::
          Key(s.dequeued[i].unit) in cfg.boot && s.dequeued[i] == OnAdd(cfg.boot[Key(s.dequeued[i].unit)]))
    && (forall k | k in cfg.boot :: OnAdd(cfg.boot[k]) in s.dequeued)
    && s.queues == (map q | q in cfg.queues :: QueueState(map[], map[]))
    && s.store == map[] && s.ledger == EMPTY_LEDGER
    && s.sched == Idle && s.flights == map[] && s.passes == 0
    && s.adopted == {} && s.firstSeen == map[] && s.renewed == {} && s.dropped == {}
  }

  // ---------- the API server and its informers ----------

  /** FilteringResourceEventHandler with one of the two phase filters. */
  function Events(before: Option<QueueUnit>, after: Option<QueueUnit>, dequeuedSide: bool): seq<Event>
  {
    var was := before.Some? && (before.value.phase == Dequeued) == dequeuedSide;
    var is_ := after.Some? && (after.value.phase == Dequeued) == dequeuedSide;
    if was && is_ then [OnUpdate(after.value)]
    else if is_ then [OnAdd(after.value)]
    else if was then [OnDelete(before.value)]
    else []
  }

  function Put(s: State, u: QueueUnit): State
  {
    var before := if Key(u) in s.api then Some(s.api[Key(u)]) else None;
    s.(api := s.api[Key(u) := u],
       queued := s.queued + Events(before, Some(u), false),
       dequeued := s.dequeued + Events(before, Some(u), true))
  }

  function Remove(s: State, k: string): State
    requires k in s.api
  {
    s.(api := s.api - {k},
       queued := s.queued + Events(Some(s.api[k]), None, false),
       dequeued := s.dequeued + Events(Some(s.api[k]), None, true))
  }

  // ---------- steps ----------

  /** What users of the API server, and time, do. */
  datatype UserOp =
    | Tick(t: int)
    | CreateUnit(u: QueueUnit)
    | MutateUnit(u: QueueUnit)
    | DeleteUnit(k: string)

  /** The two event handlers and the backoff flusher. */
  datatype ControllerOp =
    | DeliverQueued(id: ObjId)
    | DeliverDequeued
    | FlushQueue(q: string, moved: set<string>)

  /** The scheduler loop: schedule, with ErrorFunc run in line. */
  datatype LoopOp =
    | StartPass(order: seq<string>)
    | SkipQueue
    | EndPass
    | PopUnit(k: string)
    | CheckResource(r: string)
    | ReserveUnit(g: nat)
    | HandBump
    | HandLookup(found: bool)
    | HandReenter

  /** A dequeue goroutine: Dequeue, and on failure Unreserve and ErrorFunc. */
  datatype FlightOp =
    | DequeueOk
    | DequeueFail
    | UnreserveUnit
    | FlightBump
    | FlightLookup(found: bool)
    | FlightReenter(q: string)

  datatype Step =
    | ByUser(user: UserOp)
    | ByController(ctl: ControllerOp)
    | ByLoop(loop: LoopOp)
    | ByFlight(g: nat, op: FlightOp)

  /** The infos a queue's references stand for. */
  function Deref(s: State, m: map<string, ObjId>): map<string, QueueUnitInfo>
  {
    map k | k in m && m[k] in s.store :: s.store[m[k]]
  }

  function DerefQueue(s: State, q: QueueState<ObjId>): QueueState<QueueUnitInfo>
  {
    QueueState(Deref(s, q.active), Deref(s, q.backoff))
  }

  function RankIn(queues: map<string, Queue>, q: string): int
  {
    if q in queues then PriorityOf(queues[q].priority) else 0
  }

  /** SortedQueue's order: every queue once, in non-increasing priority. */
  ghost predicate SortedOrder(queues: map<string, Queue>, order: seq<string>)
  {
    && (forall q :: q in order <==> q in queues)
    && (forall i, j | 0 <= i < j < |order| :: order[i] != order[j])
    && forall i, j | 0 <= i < j < |order| ::
         order[i] in queues && order[j] in queues &&
         !Priority.Outranks(queues[order[j]].priority, queues[order[i]].priority)
  }

  /** So their ranks do not rise. */
  lemma RanksFall(queues: map<string, Queue>, order: seq<string>)
    requires forall q :: q in order <==> q in queues
    requires forall i, j | 0 <= i < j < |order| :: order[i] != order[j]
    ensures SortedOrder(queues, order) <==>
            forall i, j | 0 <= i < j < |order| :: RankIn(queues, order[i]) >= RankIn(queues, order[j])
  {
    forall i, j | 0 <= i < j < |order|
      ensures Priority.Outranks(queues[order[j]].priority, queues[order[i]].priority) <==>
              RankIn(queues, order[i]) < RankIn(queues, order[j])
    {
      assert order[i] in queues && order[j] in queues;
      Priority.OutranksIff(queues[order[j]].priority, queues[order[i]].priority);
    }
  }

  function HandleQueued(s: State, ev: Event, id: ObjId): State
  {
    var q, k := ev.unit.consumerNamespace, Key(ev.unit);
    var info := NewQueueUnitInfo(ev.unit, s.now);
    if q !in s.queues then s
    else match ev
      case OnAdd(_) =>
        s.(store := s.store[id := info],
           queues := s.queues[q := Added(s.queues[q], k, id)],
           firstSeen := s.firstSeen[k := s.now])
      case OnUpdate(_) =>
        var hit := k in s.queues[q].active || k in s.queues[q].backoff;
        s.(store := s.store[id := info],
           queues := s.queues[q := Updated(s.queues[q], k, id)],
           renewed := if hit then s.renewed + {k} else s.renewed)
      case OnDelete(_) =>
        s.(queues := s.queues[q := Deleted(s.queues[q], k)])
  }

  function HandleDequeued(cfg: Config, s: State, ev: Event): State
  {
    match ev
    case OnAdd(u) =>
      s.(ledger := AfterReserve(s.ledger, u),
         adopted := if Key(u) in cfg.boot then s.adopted + {Key(u)} else s.adopted)
    case OnUpdate(_) => s
    case OnDelete(u) => s.(ledger := AfterUnreserve(s.ledger, u))
  }

  function Bumped(s: State, o: ObjId): State
    requires o in s.store
  {
    s.(store := s.store[o := s.store[o].(attempts := s.store[o].attempts + 1, timestamp := s.now)])
  }

  function Refreshed(s: State, o: ObjId): State
    requires o in s.store && Key(s.store[o].unit) in s.api
  {
    s.(store := s.store[o := s.store[o].(unit := s.api[Key(s.store[o].unit)])])
  }

  function Reentered(s: State, o: ObjId, q: string): State
    requires o in s.store
  {
    if q in s.queues then s.(queues := s.queues[q := AddedUnschedulable(s.queues[q], s.store[o].name, o)]) else s
  }

  /** One resource of Filter's loop: not limited here, or enough of it left. */
  predicate Fits(cfg: Config, s: State, u: QueueUnit, r: string)
    requires r in u.resource && HasHard(cfg.quotas, u.consumerNamespace)
  {
    Limited(cfg.quotas, u.consumerNamespace, r) ==>
      Reserved(s.ledger, u.consumerNamespace, r) + u.resource[r] <= LimitOf(cfg.quotas, u.consumerNamespace, r)
  }

  /** The goroutine for the unit in hand: ahead holds the queue being visited and those after it. */
  function Launch(s: State): Flight
    requires s.sched.Filtering?
  {
    Flight(s.sched.obj, Dequeuing, [s.sched.q] + s.sched.rest, s.sched.pass)
  }

  /** The loop variable has held q since goroutine g was started: its pass has got as far as q. */
  predicate Captured(s: State, g: nat, q: string)
    requires g in s.flights
  {
    q in s.flights[g].ahead && (s.sched.Idle? || s.sched.pass != s.flights[g].pass || q !in s.sched.rest)
  }

  ghost predicate UserStep(cfg: Config, s: State, op: UserOp, s': State)
  {
    match op
    case Tick(t) =>
      t >= s.now && s' == s.(now := t)
    case CreateUnit(u) =>
      Key(u) !in s.used && Genuine(cfg, u) && u.phase != Dequeued && s' == Put(s, u).(used := s.used + {Key(u)})
    case MutateUnit(u) =>
      && Key(u) in s.api && Genuine(cfg, u) && (u.phase == Dequeued <==> s.api[Key(u)].phase == Dequeued)
      && s' == Put(s, u)
    case DeleteUnit(k) =>
      k in s.api && s' == Remove(s, k)
  }

  predicate DeliverStep(s: State, id: ObjId, s': State)
  {
    |s.queued| > 0 && id !in s.store && s' == HandleQueued(s.(queued := s.queued[1..]), s.queued[0], id)
  }

  predicate HandleStep(cfg: Config, s: State, s': State)
  {
    |s.dequeued| > 0 && s' == HandleDequeued(cfg, s.(dequeued := s.dequeued[1..]), s.dequeued[0])
  }

  /** A flush moves the entries that are done by now; a flush that reads later times comes after a Tick. */
  ghost predicate FlushStep(cfg: Config, s: State, q: string, moved: set<string>, s': State)
  {
    && q in s.queues && moved <= s.queues[q].backoff.Keys
    && Backoff.IsInt64(cfg.initial) && Backoff.IsInt64(cfg.max)
    && moved == SchedulingQueues.DoneBy(cfg.initial, cfg.max, DerefQueue(s, s.queues[q]), s.now)
    && s' == s.(queues := s.queues[q := Flushed(s.queues[q], moved)])
  }

  ghost predicate ControllerStep(cfg: Config, s: State, op: ControllerOp, s': State)
  {
    match op
    case DeliverQueued(id) => DeliverStep(s, id, s')
    case DeliverDequeued => HandleStep(cfg, s, s')
    case FlushQueue(q, moved) => FlushStep(cfg, s, q, moved, s')
  }

  ghost predicate LoopStep(cfg: Config, s: State, op: LoopOp, s': State)
  {
    match op
    case StartPass(order) =>
      && s.sched.Idle? && SortedOrder(cfg.queues, order)
      && s' == s.(sched := Visiting(order, s.passes), passes := s.passes + 1)
    case SkipQueue =>
      && s.sched.Visiting? && |s.sched.rest| > 0
      && (s.sched.rest[0] in s.queues ==> s.queues[s.sched.rest[0]].active == map[])
      && s' == s.(sched := Visiting(s.sched.rest[1..], s.sched.pass))
    case EndPass =>
      s.sched.Visiting? && s.sched.rest == [] && s' == s.(sched := Idle)
    case PopUnit(k) =>
      && s.sched.Visiting? && |s.sched.rest| > 0
      && var q, rest, pass := s.sched.rest[0], s.sched.rest[1..], s.sched.pass;
      && q in s.queues && k in s.queues[q].active && s.queues[q].active[k] in s.store
      && var o := s.queues[q].active[k];
      && KeyedHeap.Least(Priority.QueueLess, Deref(s, s.queues[q].active), s.store[o])
      && var u := s.store[o].unit;
      && s' == s.(queues := s.queues[q := Popped(s.queues[q], k)],
                  sched := if HasHard(cfg.quotas, u.consumerNamespace) then Filtering(o, q, u.resource.Keys, rest, pass)
                           else Failing(o, q, Bump, rest, pass))
    case CheckResource(r) =>
      && s.sched.Filtering? && s.sched.obj in s.store && r in s.sched.unchecked
      && var u := s.store[s.sched.obj].unit;
      && r in u.resource && HasHard(cfg.quotas, u.consumerNamespace)
      && s' == s.(sched := if Fits(cfg, s, u, r) then s.sched.(unchecked := s.sched.unchecked - {r})
                           else Failing(s.sched.obj, s.sched.q, Bump, s.sched.rest, s.sched.pass))
    case ReserveUnit(g) =>
      && s.sched.Filtering? && s.sched.obj in s.store && s.sched.unchecked == {} && g !in s.flights
      && var u := s.store[s.sched.obj].unit;
      && s' == if Key(u) in s.ledger.quRecord
               then s.(sched := Failing(s.sched.obj, s.sched.q, Bump, s.sched.rest, s.sched.pass))
               else s.(ledger := AfterReserve(s.ledger, u),
                       flights := s.flights[g := Launch(s)],
                       sched := Visiting(s.sched.rest, s.sched.pass))
    case HandBump =>
      && s.sched.Failing? && s.sched.stage == Bump && s.sched.obj in s.store
      && s' == Bumped(s, s.sched.obj).(sched := s.sched.(stage := Lookup))
    case HandLookup(found) =>
      && s.sched.Failing? && s.sched.stage == Lookup && s.sched.obj in s.store
      && if found
         then && Key(s.store[s.sched.obj].unit) in s.api
              && s' == Refreshed(s, s.sched.obj).(sched := s.sched.(stage := Reenter))
         else s' == s.(sched := Visiting(s.sched.rest, s.sched.pass),
                       dropped := s.dropped + {s.store[s.sched.obj].name})
    case HandReenter =>
      && s.sched.Failing? && s.sched.stage == Reenter && s.sched.obj in s.store
      && s' == Reentered(s, s.sched.obj, s.sched.q).(sched := Visiting(s.sched.rest, s.sched.pass))
  }

  ghost predicate FlightStep(s: State, g: nat, op: FlightOp, s': State)
  {
    && g in s.flights && s.flights[g].obj in s.store
    && var o, stage := s.flights[g].obj, s.flights[g].stage;
    && var k := Key(s.store[o].unit);
    match op
    case DequeueOk =>
      stage == Dequeuing && k in s.api && s' == Put(s, s.api[k].(phase := Dequeued)).(flights := s.flights - {g})
    case DequeueFail =>
      stage == Dequeuing && s' == s.(flights := s.flights[g := s.flights[g].(stage := Unreserving)])
    case UnreserveUnit =>
      && stage == Unreserving
      && s' == s.(ledger := AfterUnreserve(s.ledger, s.store[o].unit),
                  flights := s.flights[g := s.flights[g].(stage := Erring(Bump))])
    case FlightBump =>
      stage == Erring(Bump) && s' == Bumped(s, o).(flights := s.flights[g := s.flights[g].(stage := Erring(Lookup))])
    case FlightLookup(found) =>
      && stage == Erring(Lookup)
      && if found
         then k in s.api && s' == Refreshed(s, o).(flights := s.flights[g := s.flights[g].(stage := Erring(Reenter))])
         else s' == s.(flights := s.flights - {g}, dropped := s.dropped + {s.store[o].name})
    case FlightReenter(q) =>
      stage == Erring(Reenter) && Captured(s, g, q) && s' == Reentered(s, o, q).(flights := s.flights - {g})
  }

  ghost predicate Next(cfg: Config, s: State, step: Step, s': State)
  {
    match step
    case ByUser(op) => UserStep(cfg, s, op, s')
    case ByController(op) => ControllerStep(cfg, s, op, s')
    case ByLoop(op) => LoopStep(cfg, s, op, s')
    case ByFlight(g, op) => FlightStep(s, g, op, s')
  }

  /** A run: states[0] is initial and each step leads from one state to the next. */
  ghost predicate IsRun(cfg: Config, states: seq<State>, steps: seq<Step>)
  {
    && |states| == |steps| + 1
    && Init(cfg, states[0])
    && forall i | 0 <= i < |steps| :: Next(cfg, states[i], steps[i], states[i + 1])
  }

  /** s is a state of some run. */
  ghost predicate Reachable(cfg: Config, s: State)
  {
    exists states, steps :: IsRun(cfg, states, steps) && states[|steps|] == s
  }

  lemma RunStatesAreReachable(cfg: Config, states: seq<State>, steps: seq<Step>, i: nat)
    requires IsRun(cfg, states, steps) && i < |states|
    ensures Reachable(cfg, states[i])
  {
    var begun, done := states[..i + 1], steps[..i];
    assert IsRun(cfg, begun, done) && begun[|done|] == states[i];
  }

  lemma InitIsReachable(cfg: Config, s: State)
    requires Init(cfg, s)
    ensures Reachable(cfg, s)
  {
    var states: seq<State>, steps: seq<Step> := [s], [];
    assert IsRun(cfg, states, steps) && states[|steps|] == s;
  }

  lemma NextIsReachable(cfg: Config, s: State, step: Step, s': State)
    requires Reachable(cfg, s) && Next(cfg, s, step, s')
    ensures Reachable(cfg, s')
  {
    var states, steps :| IsRun(cfg, states, steps) && states[|steps|] == s;
    var longer, more := states + [s'], steps + [step];
    assert IsRun(cfg, longer, more) && longer[|more|] == s';
  }
}
