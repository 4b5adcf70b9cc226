/**
 What the queued handler hears of the API server, and what the heaps make of it: a unit that has
 not failed is kept in its own queue as the API server has it, up to events still to be handled.
 */
module AdmissionNews {
  import opened Units
  import opened Admission
  import opened AdmissionPlaces
  import opened AdmissionTokens
  import opened AdmissionTheorems
  import opened AdmissionBackoff
  import opened AdmissionErrors
  import opened AdmissionStray

  // ---------- what is reported ----------

  /** A change of a unit is reported, whole, to the handler on whose side the unit is. */
  lemma MutationIsReported(cfg: Config, s: State, u: QueueUnit, s': State)
    requires UserStep(cfg, s, MutateUnit(u), s')
    ensures u.phase != Dequeued ==> s'.queued == s.queued + [OnUpdate(u)] && s'.dequeued == s.dequeued
    ensures u.phase == Dequeued ==> s'.queued == s.queued && s'.dequeued == s.dequeued + [OnUpdate(u)]
    ensures s'.api.Keys == s.api.Keys && s'.api[Key(u)] == u
  {
  }

  /** A new unit is reported to the queued handler, a deleted one to the handler on whose side it was. */
  lemma ComingAndGoingIsReported(cfg: Config, s: State, u: QueueUnit, k: string, s': State)
    ensures UserStep(cfg, s, CreateUnit(u), s') && Key(u) !in s.api ==>
              s'.queued == s.queued + [OnAdd(u)] && s'.dequeued == s.dequeued
    ensures UserStep(cfg, s, DeleteUnit(k), s') && s.api[k].phase != Dequeued ==>
              s'.queued == s.queued + [OnDelete(s.api[k])] && s'.dequeued == s.dequeued && k !in s'.api
    ensures UserStep(cfg, s, DeleteUnit(k), s') && s.api[k].phase == Dequeued ==>
              s'.queued == s.queued && s'.dequeued == s.dequeued + [OnDelete(s.api[k])] && k !in s'.api
  {
  }

  /** What users may do: create what is new, change what stays on its side, delete what is there, and wait. */
  lemma UsersMay(cfg: Config, s: State, u: QueueUnit, t: int)
    ensures (exists s' :: UserStep(cfg, s, CreateUnit(u), s')) <==>
            Key(u) !in s.used && Genuine(cfg, u) && u.phase != Dequeued
    ensures (exists s' :: UserStep(cfg, s, MutateUnit(u), s')) <==>
            && Key(u) in s.api && Genuine(cfg, u)
            && ((u.phase == Dequeued) == (s.api[Key(u)].phase == Dequeued))
    ensures (exists s' :: UserStep(cfg, s, DeleteUnit(Key(u)), s')) <==> Key(u) in s.api
    ensures (exists s' :: UserStep(cfg, s, Tick(t), s')) <==> t >= s.now
  {
    assert UserStep(cfg, s, Tick(t), s.(now := t)) <==> t >= s.now;
    var created := Put(s, u).(used := s.used + {Key(u)});
    assert UserStep(cfg, s, CreateUnit(u), created) <==> Key(u) !in s.used && Genuine(cfg, u) && u.phase != Dequeued;
    if Key(u) in s.api {
      assert UserStep(cfg, s, DeleteUnit(Key(u)), Remove(s, Key(u)));
      assert UserStep(cfg, s, MutateUnit(u), Put(s, u)) <==>
             Genuine(cfg, u) && ((u.phase == Dequeued) == (s.api[Key(u)].phase == Dequeued));
    }
  }

  // ---------- the last word about a unit ----------

  /** What an event says of its unit holds at the API server. */
  predicate TrueOf(api: map<string, QueueUnit>, ev: Event)
  {
    var k := Key(ev.unit);
    if ev.OnDelete? then k !in api || api[k].phase == Dequeued
    else k in api && api[k] == ev.unit && ev.unit.phase != Dequeued
  }

  predicate IsLast(events: seq<Event>, i: nat)
    requires i < |events|
  {
    forall j | i < j < |events| :: Key(events[j].unit) != Key(events[i].unit)
  }

  /** The last event about each unit is true. */
  predicate NewsIsTrue(api: map<string, QueueUnit>, queued: seq<Event>)
  {
    forall i | 0 <= i < |queued| && IsLast(queued, i) :: TrueOf(api, queued[i])
  }

  /** One unit changes at the API server, and either it is reported or both before and after it is not the handler's. */
  lemma ChangeKeepsNews(api: map<string, QueueUnit>, api': map<string, QueueUnit>, queued: seq<Event>, evs: seq<Event>,
                        k: string)
    requires NewsIsTrue(api, queued) && api - {k} == api' - {k} && |evs| <= 1
    requires |evs| == 1 ==> Key(evs[0].unit) == k && TrueOf(api', evs[0])
    requires evs == [] ==> (k in api && api[k].phase == Dequeued && (k in api' ==> api'[k].phase == Dequeued))
    ensures NewsIsTrue(api', queued + evs)
  {
    var more := queued + evs;
    forall i | 0 <= i < |more| && IsLast(more, i) ensures TrueOf(api', more[i]) {
      if i < |queued| {
        assert more[i] == queued[i];
        assert forall j | i < j < |queued| :: more[j] == queued[j];
        assert evs != [] ==> more[|queued|] == evs[0];
        assert IsLast(queued, i);
        SameElsewhere(api, api', k, Key(queued[i].unit));
      }
    }
  }

  lemma SameElsewhere(api: map<string, QueueUnit>, api': map<string, QueueUnit>, k: string, j: string)
    requires api - {k} == api' - {k}
    ensures j != k ==> (j in api <==> j in api') && (j in api ==> api'[j] == api[j])
  {
    if j != k {
      assert j in api <==> j in api - {k};
      assert j in api' <==> j in api' - {k};
      if j in api { assert (api - {k})[j] == api[j] && (api' - {k})[j] == api'[j]; }
    }
  }

  lemma BeheadKeepsNews(api: map<string, QueueUnit>, queued: seq<Event>)
    requires NewsIsTrue(api, queued) && |queued| > 0
    ensures NewsIsTrue(api, queued[1..])
    ensures Unheard(queued[1..], Key(queued[0].unit)) ==> TrueOf(api, queued[0])
  {
    var rest := queued[1..];
    forall i | 0 <= i < |rest| && IsLast(rest, i) ensures TrueOf(api, rest[i]) {
      assert forall j | i + 1 < j < |queued| :: queued[j] == rest[j - 1];
      assert IsLast(queued, i + 1);
    }
    if Unheard(rest, Key(queued[0].unit)) {
      assert forall j | 0 < j < |queued| :: queued[j] == rest[j - 1];
      assert IsLast(queued, 0);
    }
  }

  // ---------- the heaps ----------

  /** p is a heap of k's own queue. */
  predicate AtHome(cfg: Config, k: string, p: Place)
  {
    p == Active(Home(cfg, k)) || p == Backing(Home(cfg, k))
  }

  /** Unless o has failed or an event about k is still to be handled, it carries k's unit at the API server. */
  predicate Current(s: State, k: string, o: ObjId)
  {
    o in s.store && (s.store[o].attempts == 0 && Unheard(s.queued, k) ==> k in s.api && s.api[k] == s.store[o].unit)
  }

  ghost predicate HeapsCurrent(cfg: Config, s: State)
  {
    forall k, p | AtHome(cfg, k, p) && At(s, k, p) :: Current(s, k, ObjAt(s, k, p).value)
  }

  ghost predicate Informed(cfg: Config, s: State)
  {
    NewsIsTrue(s.api, s.queued) && HeapsCurrent(cfg, s)
  }

  /** The object a heap holds under k stays as it is. */
  ghost predicate HeapObjectsKept(s: State, s': State)
  {
    forall k, p | At(s, k, p) && (p.Active? || p.Backing?) ::
      var o := ObjAt(s, k, p).value; o in s.store && o in s'.store && s'.store[o] == s.store[o]
  }

  lemma StepKeepsHeapObjects(cfg: Config, s: State, step: Step, s': State)
    requires Resolved(s) && Single(s) && Next(cfg, s, step, s')
    ensures HeapObjectsKept(s, s')
  {
    ActiveObjectsKept(cfg, s, step, s');
  }

  /** Nothing that concerns k in a heap of its own queue has happened outside it unless it is still to be heard. */
  ghost predicate NothingNew(cfg: Config, s: State, e: Effect, s': State)
  {
    forall k, p | AtHome(cfg, k, p) && At(s, k, p) && Unheard(s'.queued, k)
                  && !(e.Arrive? && e.k == k) && !(e.Leave? && e.k == k) ::
      Unheard(s.queued, k) && (k in s.api ==> k in s'.api && s'.api[k] == s.api[k])
  }

  lemma EffectKeepsCurrent(cfg: Config, s: State, e: Effect, s': State)
    requires HeapsCurrent(cfg, s) && Single(s) && Effected(s, e, s') && Sound(s, e) && HeapObjectsKept(s, s')
    requires NothingNew(cfg, s, e, s')
    requires e.Arrive? ==> Current(s', e.k, e.o)
    requires e.Move? && At(s', e.k, e.to) ==>
               !(e.to.Active? || e.to.Backing?) ||
               var o := ObjAt(s', e.k, e.to).value; o in s'.store && s'.store[o].attempts > 0
    requires e.Leave? ==> At(s, e.k, e.p)
    ensures HeapsCurrent(cfg, s')
  {
    forall k, p | AtHome(cfg, k, p) && At(s', k, p) ensures Current(s', k, ObjAt(s', k, p).value) {
      var from := Origin(s, e, s', k, p);
      assert ObjAt(s', k, p) == After(s, e, k, p);
      if (e.Arrive? && e.k == k && e.p == p) || (e.Move? && e.k == k && e.to == p) {
      } else {
        assert At(s, k, from) && AtHome(cfg, k, from);
        assert Current(s, k, ObjAt(s, k, from).value);
      }
    }
  }

  // ---------- step by step ----------

  lemma UserKeepsInformed(cfg: Config, s: State, op: UserOp, s': State)
    requires Placed(cfg, s) && Informed(cfg, s) && UserStep(cfg, s, op, s')
    ensures Informed(cfg, s')
  {
    StepKeepsHeapObjects(cfg, s, ByUser(op), s');
    KeptEffect(s, s');
    UserKeepsNews(cfg, s, op, s');
    UserIsHeard(cfg, s, op, s');
    EffectKeepsCurrent(cfg, s, Stay, s');
  }

  lemma UserKeepsNews(cfg: Config, s: State, op: UserOp, s': State)
    requires Faithful(cfg, s) && NewsIsTrue(s.api, s.queued) && UserStep(cfg, s, op, s')
    ensures NewsIsTrue(s'.api, s'.queued)
  {
    match op
    case Tick(_) =>
    case CreateUnit(u) =>
      assert Key(u) !in s.api;
      ComingAndGoingIsReported(cfg, s, u, Key(u), s');
      ChangeKeepsNews(s.api, s'.api, s.queued, [OnAdd(u)], Key(u));
    case MutateUnit(u) =>
      MutationIsReported(cfg, s, u, s');
      assert s.queued + [] == s.queued;
      ChangeKeepsNews(s.api, s'.api, s.queued, if u.phase == Dequeued then [] else [OnUpdate(u)], Key(u));
    case DeleteUnit(k) =>
      assert Key(s.api[k]) == k;
      ComingAndGoingIsReported(cfg, s, s.api[k], k, s');
      assert s.queued + [] == s.queued;
      ChangeKeepsNews(s.api, s'.api, s.queued, if s.api[k].phase == Dequeued then [] else [OnDelete(s.api[k])], k);
  }

  /** A user's change of a unit that is in a heap is still to be heard. */
  lemma UserIsHeard(cfg: Config, s: State, op: UserOp, s': State)
    requires Placed(cfg, s) && UserStep(cfg, s, op, s')
    ensures NothingNew(cfg, s, Stay, s')
  {
    forall k, p | AtHome(cfg, k, p) && At(s, k, p) && Unheard(s'.queued, k)
      ensures Unheard(s.queued, k) && (k in s.api ==> k in s'.api && s'.api[k] == s.api[k])
    {
      assert Young(s, k);
      ChangeIsHeard(cfg, s, op, s', k);
    }
  }

  lemma ChangeIsHeard(cfg: Config, s: State, op: UserOp, s': State, k: string)
    requires Faithful(cfg, s) && UserStep(cfg, s, op, s') && Young(s, k) && Unheard(s'.queued, k)
    ensures Unheard(s.queued, k) && (k in s.api ==> k in s'.api && s'.api[k] == s.api[k])
  {
    match op
    case Tick(_) =>
    case CreateUnit(u) =>
      assert Key(u) !in s.api;
      ComingAndGoingIsReported(cfg, s, u, k, s');
      Appended(s.queued, OnAdd(u), k);
    case MutateUnit(u) =>
      MutationIsReported(cfg, s, u, s');
      Appended(s.queued, OnUpdate(u), k);
    case DeleteUnit(j) =>
      assert Key(s.api[j]) == j;
      ComingAndGoingIsReported(cfg, s, s.api[j], j, s');
      Appended(s.queued, OnDelete(s.api[j]), k);
  }

  lemma Appended(events: seq<Event>, ev: Event, k: string)
    ensures Unheard(events + [ev], k) ==> Unheard(events, k) && Key(ev.unit) != k
  {
    if Unheard(events + [ev], k) {
      assert (events + [ev])[|events|] == ev;
      assert forall i | 0 <= i < |events| :: (events + [ev])[i] == events[i];
    }
  }

  lemma DeliverKeepsInformed(cfg: Config, s: State, id: ObjId, s': State)
    requires Placed(cfg, s) && Informed(cfg, s) && DeliverStep(s, id, s')
    ensures Informed(cfg, s')
  {
    var e := ControllerEffectOf(s, DeliverQueued(id));
    StepKeepsHeapObjects(cfg, s, ByController(DeliverQueued(id)), s');
    DeliverEffect(s, id, s');
    DeliverIsSound(s, id, s');
    DeliverFrame(s, id, s');
    BeheadKeepsNews(s.api, s.queued);
    DeliverIsHeard(cfg, s, id, s');
    DeliverBringsNews(cfg, s, id, s');
    EffectKeepsCurrent(cfg, s, e, s');
  }

  /** Handling an event about k settles it: the entry of k's own queue is replaced or removed. */
  lemma DeliverIsHeard(cfg: Config, s: State, id: ObjId, s': State)
    requires Placed(cfg, s) && DeliverStep(s, id, s')
    ensures NothingNew(cfg, s, ControllerEffectOf(s, DeliverQueued(id)), s')
    ensures var e := ControllerEffectOf(s, DeliverQueued(id)); e.Leave? ==> At(s, e.k, e.p)
  {
    var ev, e := s.queued[0], ControllerEffectOf(s, DeliverQueued(id));
    DeliverFrame(s, id, s');
    assert OkUnit(cfg, s.used, ev.unit);
    forall k, p | AtHome(cfg, k, p) && At(s, k, p) && Unheard(s'.queued, k)
                  && !(e.Arrive? && e.k == k) && !(e.Leave? && e.k == k)
      ensures Unheard(s.queued, k)
    {
      assert k != Key(ev.unit);
      assert forall i | 0 < i < |s.queued| :: s.queued[i] == s'.queued[i - 1];
    }
  }

  /** What an event brings is what the API server has, if it is the last word. */
  lemma DeliverBringsNews(cfg: Config, s: State, id: ObjId, s': State)
    requires DeliverStep(s, id, s') && NewsIsTrue(s.api, s.queued)
    ensures var e := ControllerEffectOf(s, DeliverQueued(id)); e.Arrive? ==> Current(s', e.k, e.o)
  {
    BeheadKeepsNews(s.api, s.queued);
    DeliverFrame(s, id, s');
  }

  lemma ControllerKeepsInformed(cfg: Config, s: State, op: ControllerOp, s': State)
    requires Placed(cfg, s) && Informed(cfg, s) && ControllerStep(cfg, s, op, s')
    ensures Informed(cfg, s')
  {
    if op.DeliverQueued? {
      DeliverKeepsInformed(cfg, s, op.id, s');
    } else if op.DeliverDequeued? {
      HandledFrame(cfg, s, s');
      StepKeepsHeapObjects(cfg, s, ByController(op), s');
      KeptEffect(s, s');
      EffectKeepsCurrent(cfg, s, Stay, s');
    } else {
      StepKeepsHeapObjects(cfg, s, ByController(op), s');
      FlushEffect(s, op.q, op.moved, s');
      EffectKeepsCurrent(cfg, s, Promote(op.q, op.moved), s');
    }
  }

  /** What ErrorFunc has bumped has failed. */
  lemma BumpedHasFailed(cfg: Config, s: State, k: string, p: Place)
    requires ConfigOk(cfg) && Reachable(cfg, s) && Holder(p) && At(s, k, p) && PastBump(s, p)
    ensures ObjAt(s, k, p).value in s.store && s.store[ObjAt(s, k, p).value].attempts > 0
  {
    var states, steps :| IsRun(cfg, states, steps) && states[|steps|] == s;
    var i := TripOf(cfg, states, steps, |steps|, k, p);
    AttemptsAreFailures(cfg, states, steps, i, ObjAt(s, k, p).value);
  }

  /** The loop and the goroutines put only units that have failed into a heap. */
  lemma ReturnedHaveFailed(cfg: Config, s: State, step: Step, s': State, k: string, q: string)
    requires ConfigOk(cfg) && Reachable(cfg, s) && Next(cfg, s, step, s')
    requires At(s', k, Backing(q)) && !At(s, k, Backing(q))
    ensures var o := ObjAt(s', k, Backing(q)).value; o in s'.store && s'.store[o].attempts > 0
  {
    ReachableInv(cfg, s);
    var p := ReturnsFromHolder(cfg, s, step, s', k, q);
    BumpedHasFailed(cfg, s, k, p);
  }

  lemma LoopKeepsInformed(cfg: Config, s: State, op: LoopOp, s': State)
    requires ConfigOk(cfg) && Reachable(cfg, s) && Informed(cfg, s) && LoopStep(cfg, s, op, s')
    ensures Informed(cfg, s')
  {
    ReachableInv(cfg, s);
    var e := LoopEffectOf(s, op);
    StepKeepsHeapObjects(cfg, s, ByLoop(op), s');
    LoopFrame(cfg, s, op, s');
    HandIsFaithful(cfg, s);
    LoopEffect(cfg, s, op, s');
    LoopIsSound(cfg, s, op, s');
    LoopMoves(cfg, s, op, s');
    EffectKeepsCurrent(cfg, s, e, s');
  }

  lemma LoopMoves(cfg: Config, s: State, op: LoopOp, s': State)
    requires ConfigOk(cfg) && Reachable(cfg, s) && LoopStep(cfg, s, op, s')
    requires Placed(cfg, s) && Effected(s, LoopEffectOf(s, op), s') && Sound(s, LoopEffectOf(s, op))
    ensures var e := LoopEffectOf(s, op);
            && (e.Move? && At(s', e.k, e.to) ==>
                  !(e.to.Active? || e.to.Backing?) ||
                  var o := ObjAt(s', e.k, e.to).value; o in s'.store && s'.store[o].attempts > 0)
            && (e.Leave? ==> At(s, e.k, e.p))
  {
    var e := LoopEffectOf(s, op);
    if e.Move? && e.to.Backing? && At(s', e.k, e.to) {
      assert At(s, e.k, Hand) && !At(s, e.k, e.to);
      ReturnedHaveFailed(cfg, s, ByLoop(op), s', e.k, e.to.q);
    }
    if HandObj(s).Some? { assert At(s, HandName(s), Hand); }
  }

  lemma FlightKeepsInformed(cfg: Config, s: State, g: nat, op: FlightOp, s': State)
    requires ConfigOk(cfg) && Reachable(cfg, s) && Informed(cfg, s) && FlightStep(s, g, op, s')
    ensures Informed(cfg, s')
  {
    ReachableInv(cfg, s);
    StepKeepsHeapObjects(cfg, s, ByFlight(g, op), s');
    FlightEffect(s, g, op, s');
    FlightIsSound(s, g, op, s');
    FlightMoves(cfg, s, g, op, s');
    if op == DequeueOk {
      DequeueKeepsNews(cfg, s, g, s');
    } else {
      FlightFrame(s, g, op, s');
    }
    EffectKeepsCurrent(cfg, s, FlightEffectOf(s, g, op), s');
  }

  lemma FlightMoves(cfg: Config, s: State, g: nat, op: FlightOp, s': State)
    requires ConfigOk(cfg) && Reachable(cfg, s) && FlightStep(s, g, op, s')
    requires Placed(cfg, s) && Effected(s, FlightEffectOf(s, g, op), s')
    ensures var e := FlightEffectOf(s, g, op);
            && (e.Move? && At(s', e.k, e.to) ==>
                  !(e.to.Active? || e.to.Backing?) ||
                  var o := ObjAt(s', e.k, e.to).value; o in s'.store && s'.store[o].attempts > 0)
            && (e.Leave? ==> At(s, e.k, e.p))
  {
    var e := FlightEffectOf(s, g, op);
    assert At(s, FlightName(s, g), InFlight(g));
    if e.Move? && At(s', e.k, e.to) {
      assert !At(s, e.k, e.to);
      ReturnedHaveFailed(cfg, s, ByFlight(g, op), s', e.k, e.to.q);
    }
  }

  /** A successful dequeue takes the unit out of the queued handler's sight. */
  lemma DequeueKeepsNews(cfg: Config, s: State, g: nat, s': State)
    requires Placed(cfg, s) && NewsIsTrue(s.api, s.queued) && FlightStep(s, g, DequeueOk, s')
    ensures NewsIsTrue(s'.api, s'.queued)
    ensures NothingNew(cfg, s, Leave(FlightName(s, g), InFlight(g)), s')
  {
    var k := FlightName(s, g);
    assert At(s, k, InFlight(g)) && Key(s.store[s.flights[g].obj].unit) == k && Key(s.api[k]) == k && Young(s, k);
    assert s'.queued == s.queued + [OnDelete(s.api[k])];
    ChangeKeepsNews(s.api, s'.api, s.queued, [OnDelete(s.api[k])], k);
    forall j, p | AtHome(cfg, j, p) && At(s, j, p) && Unheard(s'.queued, j)
      ensures Unheard(s.queued, j) && (j in s.api ==> j in s'.api && s'.api[j] == s.api[j])
    {
      Appended(s.queued, OnDelete(s.api[k]), j);
    }
  }

  lemma NextKeepsInformed(cfg: Config, s: State, step: Step, s': State)
    requires ConfigOk(cfg) && Reachable(cfg, s) && Informed(cfg, s) && Next(cfg, s, step, s')
    ensures Informed(cfg, s')
  {
    ReachableInv(cfg, s);
    match step
    case ByUser(op) => UserKeepsInformed(cfg, s, op, s');
    case ByController(op) => ControllerKeepsInformed(cfg, s, op, s');
    case ByLoop(op) => LoopKeepsInformed(cfg, s, op, s');
    case ByFlight(g, op) => FlightKeepsInformed(cfg, s, g, op, s');
  }

  /**
   In every state of every run, a unit in a heap of its own queue that has not failed, and of which
   no event is left to be handled, is there exactly as the API server has it.
   */
  lemma HeapsHoldCurrentUnits(cfg: Config, s: State, k: string, p: Place)
    requires ConfigOk(cfg) && Reachable(cfg, s) && AtHome(cfg, k, p) && At(s, k, p) && Unheard(s.queued, k)
    ensures ObjAt(s, k, p).value in s.store
    ensures s.store[ObjAt(s, k, p).value].attempts == 0 ==>
              k in s.api && s.api[k] == s.store[ObjAt(s, k, p).value].unit
  {
    var states, steps :| IsRun(cfg, states, steps) && states[|steps|] == s;
    NothingAtFirst(cfg, states[0]);
    for i := 0 to |steps|
      invariant Informed(cfg, states[i])
    {
      RunStatesAreReachable(cfg, states, steps, i);
      NextKeepsInformed(cfg, states[i], steps[i], states[i + 1]);
    }
    assert Current(s, k, ObjAt(s, k, p).value);
  }
}
