/**
 What the scheduler's steps leave on record: the history kept with a state is that of its run, the
 scheduler changes nothing at the API server but a phase, and the queued handler does to the queues
 what the queue's own methods do.
 */
module AdmissionRecords {
  import opened Orders
  import opened Units
  import opened QueueSpec
  import opened Admission
  import opened AdmissionPlaces
  import opened AdmissionTokens
  import opened AdmissionTheorems

  // ---------- the API server ----------

  /** Only a goroutine's Dequeue changes a unit at the API server, and nothing of it but the phase. */
  lemma SchedulerSetsOnlyPhase(cfg: Config, s: State, step: Step, s': State, k: string)
    requires ConfigOk(cfg) && Reachable(cfg, s) && Next(cfg, s, step, s') && !step.ByUser?
    ensures k in s'.api <==> k in s.api
    ensures k in s.api && s'.api[k] != s.api[k] ==>
              && s'.api[k] == s.api[k].(phase := Dequeued) && s.api[k].phase != Dequeued
              && step.ByFlight? && step.op == DequeueOk && FlightName(s, step.g) == k
    ensures step.ByFlight? && step.op == DequeueOk ==>
              FlightName(s, step.g) in s'.api && s'.api[FlightName(s, step.g)].phase == Dequeued
  {
    ReachableInv(cfg, s);
    match step
    case ByController(op) => ControllerKeepsApi(cfg, s, op, s');
    case ByLoop(op) => LoopFrame(cfg, s, op, s');
    case ByFlight(g, op) => FlightSetsPhase(cfg, s, g, op, s');
  }

  lemma FlightSetsPhase(cfg: Config, s: State, g: nat, op: FlightOp, s': State)
    requires Placed(cfg, s) && FlightStep(s, g, op, s')
    ensures op != DequeueOk ==> s'.api == s.api
    ensures op == DequeueOk ==>
              var k := FlightName(s, g);
              k in s.api && s.api[k].phase != Dequeued && s'.api == s.api[k := s.api[k].(phase := Dequeued)]
  {
    if op == DequeueOk {
      DequeueSetsPhase(cfg, s, g, s');
    } else {
      FlightFrame(s, g, op, s');
    }
  }

  lemma ControllerKeepsApi(cfg: Config, s: State, op: ControllerOp, s': State)
    requires ControllerStep(cfg, s, op, s')
    ensures s'.api == s.api
  {
    if op.DeliverQueued? {
      DeliverFrame(s, op.id, s');
    } else if op.DeliverDequeued? {
      HandledFrame(cfg, s, s');
    }
  }

  lemma DequeueSetsPhase(cfg: Config, s: State, g: nat, s': State)
    requires Placed(cfg, s) && FlightStep(s, g, DequeueOk, s')
    ensures var k := FlightName(s, g);
            && k in s.api && s.api[k].phase != Dequeued && s'.api == s.api[k := s.api[k].(phase := Dequeued)]
  {
    var k := FlightName(s, g);
    assert At(s, k, InFlight(g)) && Key(s.store[s.flights[g].obj].unit) == k && Key(s.api[k]) == k && Young(s, k);
  }

  // ---------- the queued handler ----------

  /** Every reference of q resolves. */
  predicate RefsOk(s: State, q: QueueState<ObjId>)
  {
    (forall k | k in q.active :: q.active[k] in s.store) && (forall k | k in q.backoff :: q.backoff[k] in s.store)
  }

  lemma HeapRefs(s: State, x: string)
    requires Resolved(s) && x in s.queues
    ensures RefsOk(s, s.queues[x])
  {
    assert forall k | k in s.queues[x].active :: At(s, k, Active(x));
    assert forall k | k in s.queues[x].backoff :: At(s, k, Backing(x));
  }

  /** A new object is behind no reference yet. */
  lemma NewObjectIsUnseen(s: State, id: ObjId, info: QueueUnitInfo, s': State, q: QueueState<ObjId>)
    requires RefsOk(s, q) && id !in s.store && s'.store == s.store[id := info]
    ensures RefsOk(s', q) && DerefQueue(s', q) == DerefQueue(s, q)
  {
  }

  /** The queue operations on references are those on the infos behind them. */
  lemma DerefCommutes(s: State, q: QueueState<ObjId>, k: string, id: ObjId)
    requires RefsOk(s, q) && id in s.store
    ensures DerefQueue(s, Added(q, k, id)) == Added(DerefQueue(s, q), k, s.store[id])
    ensures DerefQueue(s, Updated(q, k, id)) == Updated(DerefQueue(s, q), k, s.store[id])
  {
    assert Deref(s, q.active[k := id]) == Deref(s, q.active)[k := s.store[id]];
    assert Deref(s, q.backoff[k := id]) == Deref(s, q.backoff)[k := s.store[id]];
  }

  lemma DerefDeletes(s: State, q: QueueState<ObjId>, k: string)
    requires RefsOk(s, q)
    ensures DerefQueue(s, Deleted(q, k)) == Deleted(DerefQueue(s, q), k)
  {
    assert Deref(s, q.active - {k}) == Deref(s, q.active) - {k};
    assert Deref(s, q.backoff - {k}) == Deref(s, q.backoff) - {k};
  }

  /** A handled event acts on its queue as Add, Update or Delete does, and on no other. */
  lemma HandlerActsAsQueue(s: State, id: ObjId, s': State, x: string)
    requires Resolved(s) && DeliverStep(s, id, s') && x in s.queues
    ensures x in s'.queues
    ensures var ev, was, is_ := s.queued[0], DerefQueue(s, s.queues[x]), DerefQueue(s', s'.queues[x]);
            var info := QueueUnitInfo(Key(ev.unit), ev.unit, s.now, 0, s.now);
            is_ == if x != ev.unit.consumerNamespace then was
                   else if ev.OnAdd? then Added(was, Key(ev.unit), info)
                   else if ev.OnUpdate? then Updated(was, Key(ev.unit), info)
                   else Deleted(was, Key(ev.unit))
  {
    var ev := s.queued[0];
    var k, info := Key(ev.unit), NewQueueUnitInfo(ev.unit, s.now);
    HeapRefs(s, x);
    DerefDeletes(s, s.queues[x], k);
    var t := s.(store := s.store[id := info]);
    NewObjectIsUnseen(s, id, info, t, s.queues[x]);
    DerefCommutes(t, s.queues[x], k, id);
    HandledQueue(s, id, s', x);
  }

  /** What the handler leaves of the references, and where it leaves its new info. */
  lemma HandledQueue(s: State, id: ObjId, s': State, x: string)
    requires DeliverStep(s, id, s') && x in s.queues
    ensures x in s'.queues
    ensures var ev := s.queued[0];
            && s'.queues[x] == (if x != ev.unit.consumerNamespace then s.queues[x]
                                else if ev.OnAdd? then Added(s.queues[x], Key(ev.unit), id)
                                else if ev.OnUpdate? then Updated(s.queues[x], Key(ev.unit), id)
                                else Deleted(s.queues[x], Key(ev.unit)))
            && (s'.store == s.store || s'.store == s.store[id := NewQueueUnitInfo(ev.unit, s.now)])
            && (x == ev.unit.consumerNamespace && !ev.OnDelete? ==>
                  s'.store == s.store[id := NewQueueUnitInfo(ev.unit, s.now)])
            && (x == ev.unit.consumerNamespace && ev.OnDelete? ==> s'.store == s.store)
  {
  }

  // ---------- the history ----------

  /** The step handles an add event of k for a queue that exists. */
  predicate AddsUnit(s: State, step: Step, k: string)
  {
    && step.ByController? && step.ctl.DeliverQueued? && |s.queued| > 0 && s.queued[0].OnAdd?
    && Key(s.queued[0].unit) == k && s.queued[0].unit.consumerNamespace in s.queues
  }

  /** The step handles an update event of k and finds it in its queue. */
  predicate UpdatesUnit(s: State, step: Step, k: string)
  {
    && step.ByController? && step.ctl.DeliverQueued? && |s.queued| > 0 && s.queued[0].OnUpdate?
    && Key(s.queued[0].unit) == k && s.queued[0].unit.consumerNamespace in s.queues
    && Find(s.queues[s.queued[0].unit.consumerNamespace], k) != None
  }

  /** The step fails to look k up. */
  predicate LosesUnit(s: State, step: Step, k: string)
  {
    || (step == ByLoop(HandLookup(false)) && HandObj(s).Some? && NameOf(s, HandObj(s).value) == k)
    || (step.ByFlight? && step.op == FlightLookup(false) && FlightName(s, step.g) == k)
  }

  /** The step handles the add event of k, which was Dequeued before the start. */
  predicate ReportsUnit(cfg: Config, s: State, step: Step, k: string)
  {
    && step.ByController? && step.ctl.DeliverDequeued? && |s.dequeued| > 0 && s.dequeued[0].OnAdd?
    && Key(s.dequeued[0].unit) == k && k in cfg.boot
  }

  lemma HistoryStep(cfg: Config, s: State, step: Step, s': State, k: string)
    requires Next(cfg, s, step, s')
    ensures k in s'.renewed <==> k in s.renewed || UpdatesUnit(s, step, k)
    ensures k in s'.dropped <==> k in s.dropped || LosesUnit(s, step, k)
    ensures k in s'.adopted <==> k in s.adopted || ReportsUnit(cfg, s, step, k)
    ensures k in s'.firstSeen <==> k in s.firstSeen || AddsUnit(s, step, k)
    ensures k in s'.firstSeen ==> s'.firstSeen[k] == if AddsUnit(s, step, k) then s.now else s.firstSeen[k]
  {
    match step
    case ByUser(op) => UserHistory(cfg, s, op, s');
    case ByController(op) => ControllerHistory(cfg, s, op, s', k);
    case ByLoop(op) => LoopHistory(cfg, s, op, s', k);
    case ByFlight(g, op) => FlightHistory(s, g, op, s', k);
  }

  /** The history fields are the same. */
  predicate HistoryKept(s: State, s': State)
  {
    s'.renewed == s.renewed && s'.adopted == s.adopted && s'.firstSeen == s.firstSeen
  }

  lemma UserHistory(cfg: Config, s: State, op: UserOp, s': State)
    requires UserStep(cfg, s, op, s')
    ensures HistoryKept(s, s') && s'.dropped == s.dropped
  {
  }

  lemma ControllerHistory(cfg: Config, s: State, op: ControllerOp, s': State, k: string)
    requires ControllerStep(cfg, s, op, s')
    ensures var step := ByController(op);
            && (k in s'.renewed <==> k in s.renewed || UpdatesUnit(s, step, k))
            && s'.dropped == s.dropped
            && (k in s'.adopted <==> k in s.adopted || ReportsUnit(cfg, s, step, k))
            && (k in s'.firstSeen <==> k in s.firstSeen || AddsUnit(s, step, k))
            && (k in s'.firstSeen ==> s'.firstSeen[k] == if AddsUnit(s, step, k) then s.now else s.firstSeen[k])
  {
    if op.DeliverQueued? {
      DeliverFrame(s, op.id, s');
    } else if op.DeliverDequeued? {
      HandledFrame(cfg, s, s');
    }
  }

  lemma LoopHistory(cfg: Config, s: State, op: LoopOp, s': State, k: string)
    requires LoopStep(cfg, s, op, s')
    ensures HistoryKept(s, s') && (k in s'.dropped <==> k in s.dropped || LosesUnit(s, ByLoop(op), k))
  {
    LoopFrame(cfg, s, op, s');
  }

  lemma FlightHistory(s: State, g: nat, op: FlightOp, s': State, k: string)
    requires FlightStep(s, g, op, s')
    ensures HistoryKept(s, s') && (k in s'.dropped <==> k in s.dropped || LosesUnit(s, ByFlight(g, op), k))
  {
  }

  /** The first n steps of a run contain one of a kind. */
  ghost predicate Once(states: seq<State>, steps: seq<Step>, n: nat, kind: (State, Step) -> bool)
    requires n <= |steps| && |states| == |steps| + 1
  {
    exists m: nat :: m < n && Happens(states, steps, m, kind)
  }

  predicate Happens(states: seq<State>, steps: seq<Step>, m: nat, kind: (State, Step) -> bool)
    requires m < |steps| && |states| == |steps| + 1
  {
    kind(states[m], steps[m])
  }

  lemma OnceMore(states: seq<State>, steps: seq<Step>, n: nat, kind: (State, Step) -> bool)
    requires n < |steps| && |states| == |steps| + 1
    ensures Once(states, steps, n + 1, kind) <==> Once(states, steps, n, kind) || kind(states[n], steps[n])
  {
    if Once(states, steps, n, kind) {
      var m: nat :| m < n && Happens(states, steps, m, kind);
      assert m < n + 1 && Happens(states, steps, m, kind);
    }
    if kind(states[n], steps[n]) { assert Happens(states, steps, n, kind); }
  }

  /**
   The history of a state is that of its run: a unit counts as updated, let go, or taken over
   exactly when a step before has handled such an event or failed such a lookup.
   */
  lemma HistoryIsTrue(cfg: Config, states: seq<State>, steps: seq<Step>, n: nat, k: string)
    requires IsRun(cfg, states, steps) && n < |states|
    ensures k in states[n].renewed <==> Once(states, steps, n, (s, step) => UpdatesUnit(s, step, k))
    ensures k in states[n].dropped <==> Once(states, steps, n, (s, step) => LosesUnit(s, step, k))
    ensures k in states[n].adopted <==> Once(states, steps, n, (s, step) => ReportsUnit(cfg, s, step, k))
    ensures k in states[n].firstSeen <==> Once(states, steps, n, (s, step) => AddsUnit(s, step, k))
  {
    var updates: (State, Step) -> bool := (s, step) => UpdatesUnit(s, step, k);
    var loses: (State, Step) -> bool := (s, step) => LosesUnit(s, step, k);
    var reports: (State, Step) -> bool := (s, step) => ReportsUnit(cfg, s, step, k);
    var adds: (State, Step) -> bool := (s, step) => AddsUnit(s, step, k);
    for m := 0 to n
      invariant k in states[m].renewed <==> Once(states, steps, m, updates)
      invariant k in states[m].dropped <==> Once(states, steps, m, loses)
      invariant k in states[m].adopted <==> Once(states, steps, m, reports)
      invariant k in states[m].firstSeen <==> Once(states, steps, m, adds)
    {
      HistoryStep(cfg, states[m], steps[m], states[m + 1], k);
      OnceMore(states, steps, m, updates);
      OnceMore(states, steps, m, loses);
      OnceMore(states, steps, m, reports);
      OnceMore(states, steps, m, adds);
    }
  }
}
