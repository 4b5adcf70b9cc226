/** No unit is lost: the counterpart of "in at most one place" is "in at least one". */
module AdmissionProgress {
  import opened Orders
  import opened Units
  import opened QueueSpec
  import opened Admission
  import opened AdmissionPlaces
  import opened AdmissionTokens
  import opened AdmissionLedger

  ghost predicate Somewhere(s: State, k: string)
  {
    exists p :: At(s, k, p)
  }

  /** A unit the scheduler still owes service: enqueued, with a queue, and not let go. */
  predicate Owed(cfg: Config, s: State, k: string)
  {
    k in s.api && NotDequeued(s.api, k) && k !in s.dropped && ClaimFor(cfg, k).namespace in s.queues
  }

  ghost predicate Kept(cfg: Config, s: State)
  {
    forall k | Owed(cfg, s, k) :: Somewhere(s, k) || AddPending(s.queued, k)
  }

  /** A delete event on the queued side is about a unit that is gone or Dequeued. */
  predicate DeletesAreFinal(api: map<string, QueueUnit>, queued: seq<Event>)
  {
    forall i | 0 <= i < |queued| && queued[i].OnDelete? && Key(queued[i].unit) in api ::
      !NotDequeued(api, Key(queued[i].unit))
  }

  predicate Existing(names: seq<string>, queues: set<string>)
  {
    forall i | 0 <= i < |names| :: names[i] in queues
  }

  predicate SchedRouted(sched: Sched, queues: set<string>)
  {
    match sched
    case Idle => true
    case Visiting(rest, _) => Existing(rest, queues)
    case Filtering(_, q, _, rest, _) => q in queues && Existing(rest, queues)
    case Failing(_, q, _, rest, _) => q in queues && Existing(rest, queues)
  }

  /** Every queue the loop or a goroutine may return a unit to exists. */
  predicate Routed(cfg: Config, s: State)
  {
    && s.queues.Keys == cfg.queues.Keys
    && SchedRouted(s.sched, s.queues.Keys)
    && forall g | g in s.flights :: Existing(s.flights[g].ahead, s.queues.Keys)
  }

  ghost predicate Served(cfg: Config, s: State)
  {
    Kept(cfg, s) && DeletesAreFinal(s.api, s.queued) && Routed(cfg, s)
  }

  /** A unit stays somewhere unless the step makes it leave. */
  lemma EffectKeepsSomewhere(s: State, e: Effect, s': State, k: string)
    requires Effected(s, e, s') && Sound(s, e) && Somewhere(s, k) && !(e.Leave? && e.k == k)
    ensures Somewhere(s', k)
  {
    var p :| At(s, k, p);
    var to := if e.Move? && e.k == k && e.from == p then e.to
              else if e.Promote? && k in e.moved && p == Backing(e.q) then Active(e.q) else p;
    assert ObjAt(s', k, to) == After(s, e, k, to);
    assert At(s', k, to);
  }

  lemma EffectKeepsKept(cfg: Config, s: State, e: Effect, s': State)
    requires Kept(cfg, s) && Effected(s, e, s') && Sound(s, e)
    requires forall k | Owed(cfg, s', k) :: AddPending(s'.queued, k) || Somewhere(s', k) || Owed(cfg, s, k)
    requires e.Leave? ==> !Owed(cfg, s', e.k)
    requires forall k | Owed(cfg, s', k) && AddPending(s.queued, k) :: AddPending(s'.queued, k) || Somewhere(s', k)
    ensures Kept(cfg, s')
  {
    forall k | Owed(cfg, s', k) ensures Somewhere(s', k) || AddPending(s'.queued, k) {
      if Somewhere(s, k) {
        EffectKeepsSomewhere(s, e, s', k);
      }
    }
  }

  lemma PutKeepsAdds(s: State, u: QueueUnit)
    ensures forall k | AddPending(s.queued, k) :: AddPending(Put(s, u).queued, k)
    ensures Key(u) !in s.api && u.phase != Dequeued ==> AddPending(Put(s, u).queued, Key(u))
  {
    var before := if Key(u) in s.api then Some(s.api[Key(u)]) else None;
    var evs := Events(before, Some(u), false);
    if evs != [] {
      assert evs == [evs[0]];
      AppendLaws(s.queued, evs[0]);
    } else {
      assert s.queued + evs == s.queued;
    }
  }

  lemma RemoveKeepsAdds(s: State, j: string)
    requires j in s.api
    ensures forall k | AddPending(s.queued, k) :: AddPending(Remove(s, j).queued, k)
  {
    var evs := Events(Some(s.api[j]), None, false);
    if evs != [] {
      assert evs == [evs[0]];
      AppendLaws(s.queued, evs[0]);
    } else {
      assert s.queued + evs == s.queued;
    }
  }

  /** A unit that is Dequeued stays so, and one that is new has not been heard of: deletes stay final. */
  lemma PutKeepsFinal(s: State, u: QueueUnit)
    requires DeletesAreFinal(s.api, s.queued)
    requires if Key(u) in s.api
             then Key(s.api[Key(u)]) == Key(u) && (s.api[Key(u)].phase == Dequeued ==> u.phase == Dequeued)
             else Unheard(s.queued, Key(u))
    ensures DeletesAreFinal(Put(s, u).api, Put(s, u).queued)
  {
  }

  lemma RemoveKeepsFinal(s: State, j: string)
    requires j in s.api && Key(s.api[j]) == j && DeletesAreFinal(s.api, s.queued)
    ensures DeletesAreFinal(Remove(s, j).api, Remove(s, j).queued)
  {
  }

  /** A step of the API server alone: it may change the units and what is still to be heard of them. */
  lemma ApiKeepsServed(cfg: Config, s: State, s': State)
    requires Placed(cfg, s) && Kept(cfg, s) && Routed(cfg, s) && DeletesAreFinal(s'.api, s'.queued)
    requires s' == s.(api := s'.api, used := s'.used, queued := s'.queued, dequeued := s'.dequeued, now := s'.now)
    requires forall k | AddPending(s.queued, k) :: AddPending(s'.queued, k)
    requires forall k | Owed(cfg, s', k) :: AddPending(s'.queued, k) || Owed(cfg, s, k)
    ensures Served(cfg, s')
  {
    KeptEffect(s, s');
    EffectKeepsKept(cfg, s, Stay, s');
  }

  lemma UserKeepsServed(cfg: Config, s: State, op: UserOp, s': State)
    requires Placed(cfg, s) && Served(cfg, s) && UserStep(cfg, s, op, s')
    ensures Served(cfg, s')
  {
    match op
    case Tick(_) =>
      ApiKeepsServed(cfg, s, s');
    case CreateUnit(u) =>
      assert Unheard(s.queued, Key(u));
      PutKeepsAdds(s, u);
      PutKeepsFinal(s, u);
      ApiKeepsServed(cfg, s, s');
    case MutateUnit(u) =>
      assert Key(s.api[Key(u)]) == Key(u);
      PutKeepsAdds(s, u);
      PutKeepsFinal(s, u);
      ApiKeepsServed(cfg, s, s');
    case DeleteUnit(j) =>
      assert Key(s.api[j]) == j;
      RemoveKeepsAdds(s, j);
      RemoveKeepsFinal(s, j);
      ApiKeepsServed(cfg, s, s');
  }

  lemma DeliverKeepsServed(cfg: Config, s: State, id: ObjId, s': State)
    requires Placed(cfg, s) && Served(cfg, s) && DeliverStep(s, id, s')
    ensures Served(cfg, s')
  {
    var e, ev := ControllerEffectOf(s, DeliverQueued(id)), s.queued[0];
    DeliverEffect(s, id, s');
    DeliverIsSound(s, id, s');
    DeliverFrame(s, id, s');
    BeheadLaws(s.queued);
    assert OkUnit(cfg, s.used, s.queued[0].unit);
    DeliverKeepsQueueNames(s, id, s');
    assert DeletesAreFinal(s'.api, s'.queued) by {
      assert forall i | 0 <= i < |s'.queued| :: s'.queued[i] == s.queued[i + 1];
    }
    if ev.OnAdd? && e.Arrive? {
      assert ObjAt(s', e.k, e.p) == After(s, e, e.k, e.p);
      assert At(s', e.k, e.p);
    }
    EffectKeepsKept(cfg, s, e, s');
  }

  lemma DeliverKeepsQueueNames(s: State, id: ObjId, s': State)
    requires DeliverStep(s, id, s')
    ensures s'.queues.Keys == s.queues.Keys
  {
  }

  lemma HandledKeepsServed(cfg: Config, s: State, s': State)
    requires Placed(cfg, s) && Served(cfg, s) && HandleStep(cfg, s, s')
    ensures Served(cfg, s')
  {
    HandledFrame(cfg, s, s');
    KeptEffect(s, s');
    EffectKeepsKept(cfg, s, Stay, s');
  }

  lemma FlushKeepsServed(cfg: Config, s: State, q: string, moved: set<string>, s': State)
    requires Placed(cfg, s) && Served(cfg, s) && q in s.queues && moved <= s.queues[q].backoff.Keys
    requires s' == s.(queues := s.queues[q := Flushed(s.queues[q], moved)])
    ensures Served(cfg, s')
  {
    FlushEffect(s, q, moved, s');
    EffectKeepsKept(cfg, s, Promote(q, moved), s');
  }

  lemma ControllerKeepsServed(cfg: Config, s: State, op: ControllerOp, s': State)
    requires Placed(cfg, s) && Served(cfg, s) && ControllerStep(cfg, s, op, s')
    ensures Served(cfg, s')
  {
    match op
    case DeliverQueued(id) => DeliverKeepsServed(cfg, s, id, s');
    case DeliverDequeued => HandledKeepsServed(cfg, s, s');
    case FlushQueue(q, moved) => FlushKeepsServed(cfg, s, q, moved, s');
  }

  lemma LoopKeepsRouted(cfg: Config, s: State, op: LoopOp, s': State)
    requires Routed(cfg, s) && LoopStep(cfg, s, op, s')
    ensures Routed(cfg, s')
  {
    LoopKeepsQueueNames(cfg, s, op, s');
    LoopKeepsSchedRouted(cfg, s, op, s', s.queues.Keys);
    if !op.ReserveUnit? { LoopFrame(cfg, s, op, s'); }
  }

  lemma LoopKeepsQueueNames(cfg: Config, s: State, op: LoopOp, s': State)
    requires SchedRouted(s.sched, s.queues.Keys) && LoopStep(cfg, s, op, s')
    ensures s'.queues.Keys == s.queues.Keys
  {
  }

  lemma LoopKeepsSchedRouted(cfg: Config, s: State, op: LoopOp, s': State, queues: set<string>)
    requires SchedRouted(s.sched, queues) && queues == cfg.queues.Keys && LoopStep(cfg, s, op, s')
    ensures SchedRouted(s'.sched, queues)
  {
  }

  lemma LoopKeepsServed(cfg: Config, s: State, op: LoopOp, s': State)
    requires Placed(cfg, s) && Served(cfg, s) && LoopStep(cfg, s, op, s')
    ensures Served(cfg, s')
  {
    LoopFrame(cfg, s, op, s');
    LoopEffect(cfg, s, op, s');
    LoopIsSound(cfg, s, op, s');
    LoopKeepsRouted(cfg, s, op, s');
    LoopDrops(cfg, s, op, s');
    EffectKeepsKept(cfg, s, LoopEffectOf(s, op), s');
  }

  lemma FlightKeepsRouted(cfg: Config, s: State, g: nat, op: FlightOp, s': State)
    requires Routed(cfg, s) && FlightStep(s, g, op, s')
    ensures Routed(cfg, s')
  {
  }

  lemma DequeueKeepsServed(cfg: Config, s: State, g: nat, s': State)
    requires Placed(cfg, s) && Served(cfg, s) && FlightStep(s, g, DequeueOk, s')
    ensures Served(cfg, s')
  {
    var o := s.flights[g].obj;
    var k := Key(s.store[o].unit);
    assert Key(s.api[k]) == k && OkInfo(cfg, s.used, s.store[o]);
    PutKeepsAdds(s, s.api[k].(phase := Dequeued));
    PutKeepsFinal(s, s.api[k].(phase := Dequeued));
    DequeueFrame(s, g, s');
    FlightEffect(s, g, DequeueOk, s');
    FlightIsSound(s, g, DequeueOk, s');
    FlightKeepsRouted(cfg, s, g, DequeueOk, s');
    EffectKeepsKept(cfg, s, Leave(k, InFlight(g)), s');
  }

  lemma FlightKeepsServed(cfg: Config, s: State, g: nat, op: FlightOp, s': State)
    requires Placed(cfg, s) && Served(cfg, s) && FlightStep(s, g, op, s')
    ensures Served(cfg, s')
  {
    if op == DequeueOk {
      DequeueKeepsServed(cfg, s, g, s');
    } else {
      FlightFrame(s, g, op, s');
      FlightEffect(s, g, op, s');
      FlightIsSound(s, g, op, s');
      FlightKeepsRouted(cfg, s, g, op, s');
      FlightDrops(cfg, s, g, op, s');
      EffectKeepsKept(cfg, s, FlightEffectOf(s, g, op), s');
    }
  }

  // ---------- and a unit that was let go is gone for good ----------

  /** A unit that was let go, or Dequeued before the start. */
  predicate Past(cfg: Config, s: State, k: string)
  {
    k in s.dropped || k in cfg.boot
  }

  ghost predicate Gone(cfg: Config, s: State)
  {
    forall k | Past(cfg, s, k) :: k in s.used && NoAdd(s.queued, k) && forall p :: !At(s, k, p)
  }

  lemma EffectKeepsGone(cfg: Config, s: State, e: Effect, s': State)
    requires Single(s) && Tokens(s) && Gone(cfg, s) && Effected(s, e, s') && Sound(s, e)
    requires e.Arrive? ==> !Past(cfg, s, e.k)
    requires s'.dropped == s.dropped || (e.Leave? && At(s, e.k, e.p) && s'.dropped == s.dropped + {e.k})
    requires s.used <= s'.used && forall k | k in s.used && NoAdd(s.queued, k) :: NoAdd(s'.queued, k)
    ensures Gone(cfg, s')
  {
    forall k | Past(cfg, s', k) ensures k in s'.used && NoAdd(s'.queued, k) && forall p :: !At(s', k, p) {
      if !Past(cfg, s, k) { assert At(s, k, e.p); }
      forall p ensures !At(s', k, p) {
        if At(s', k, p) { var from := Origin(s, e, s', k, p); }
      }
    }
  }

  lemma UserKeepsGone(cfg: Config, s: State, op: UserOp, s': State)
    requires Placed(cfg, s) && Gone(cfg, s) && UserStep(cfg, s, op, s')
    ensures Gone(cfg, s')
  {
    KeptEffect(s, s');
    UserKeepsNoAdd(cfg, s, op, s');
    EffectKeepsGone(cfg, s, Stay, s');
  }

  lemma UserKeepsNoAdd(cfg: Config, s: State, op: UserOp, s': State)
    requires UserStep(cfg, s, op, s')
    ensures s'.dropped == s.dropped && s.used <= s'.used
    ensures forall k | k in s.used && NoAdd(s.queued, k) :: NoAdd(s'.queued, k)
  {
  }

  lemma ControllerKeepsGone(cfg: Config, s: State, op: ControllerOp, s': State)
    requires Placed(cfg, s) && Gone(cfg, s) && ControllerStep(cfg, s, op, s')
    ensures Gone(cfg, s')
  {
    match op
    case DeliverQueued(id) =>
      DeliverFrame(s, id, s');
      DeliverEffect(s, id, s');
      DeliverIsSound(s, id, s');
      EffectKeepsGone(cfg, s, ControllerEffectOf(s, op), s');
    case DeliverDequeued =>
      HandledFrame(cfg, s, s');
      KeptEffect(s, s');
      EffectKeepsGone(cfg, s, Stay, s');
    case FlushQueue(q, moved) =>
      assert s' == s.(queues := s.queues[q := Flushed(s.queues[q], moved)]);
      FlushEffect(s, q, moved, s');
      EffectKeepsGone(cfg, s, Promote(q, moved), s');
  }

  lemma LoopDrops(cfg: Config, s: State, op: LoopOp, s': State)
    requires Routed(cfg, s) && LoopStep(cfg, s, op, s')
    ensures var e := LoopEffectOf(s, op);
            if e.Leave? then At(s, e.k, e.p) && s'.dropped == s.dropped + {e.k} else s'.dropped == s.dropped
  {
  }

  lemma LoopKeepsGone(cfg: Config, s: State, op: LoopOp, s': State)
    requires Placed(cfg, s) && Routed(cfg, s) && Gone(cfg, s) && LoopStep(cfg, s, op, s')
    ensures Gone(cfg, s')
  {
    LoopFrame(cfg, s, op, s');
    LoopEffect(cfg, s, op, s');
    LoopIsSound(cfg, s, op, s');
    LoopDrops(cfg, s, op, s');
    EffectKeepsGone(cfg, s, LoopEffectOf(s, op), s');
  }

  lemma FlightDrops(cfg: Config, s: State, g: nat, op: FlightOp, s': State)
    requires Routed(cfg, s) && FlightStep(s, g, op, s')
    ensures var e := FlightEffectOf(s, g, op);
            if e.Leave? && op != DequeueOk then At(s, e.k, e.p) && s'.dropped == s.dropped + {e.k}
            else s'.dropped == s.dropped
  {
  }

  lemma FlightKeepsGone(cfg: Config, s: State, g: nat, op: FlightOp, s': State)
    requires Placed(cfg, s) && Routed(cfg, s) && Gone(cfg, s) && FlightStep(s, g, op, s')
    ensures Gone(cfg, s')
  {
    FlightEffect(s, g, op, s');
    FlightIsSound(s, g, op, s');
    FlightDrops(cfg, s, g, op, s');
    if op == DequeueOk {
      DequeueNoAdd(cfg, s, g, s');
    } else {
      FlightFrame(s, g, op, s');
    }
    EffectKeepsGone(cfg, s, FlightEffectOf(s, g, op), s');
  }

  lemma DequeueNoAdd(cfg: Config, s: State, g: nat, s': State)
    requires Placed(cfg, s) && FlightStep(s, g, DequeueOk, s')
    ensures s'.used == s.used && s'.dropped == s.dropped
    ensures forall k | NoAdd(s.queued, k) :: NoAdd(s'.queued, k)
  {
  }
}
