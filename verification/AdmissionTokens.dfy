/**
 A unit enters the system once, by its add event, and leaves the reach of the queues for
 good once it is Dequeued. From this every other invariant follows.
 */
module AdmissionTokens {
  import opened Orders
  import opened Units
  import opened QueueSpec
  import opened QuotaLedger
  import opened Admission
  import opened AdmissionPlaces

  // ---------- snapshots ----------

  predicate OkUnit(cfg: Config, used: set<string>, u: QueueUnit)
  {
    Genuine(cfg, u) && Key(u) in used
  }

  predicate OkInfo(cfg: Config, used: set<string>, i: QueueUnitInfo)
  {
    Key(i.unit) == i.name && OkUnit(cfg, used, i.unit)
  }

  predicate OkStore(cfg: Config, used: set<string>, store: map<ObjId, QueueUnitInfo>)
  {
    forall o | o in store :: OkInfo(cfg, used, store[o])
  }

  predicate OkApi(cfg: Config, used: set<string>, api: map<string, QueueUnit>)
  {
    forall k | k in api :: Key(api[k]) == k && OkUnit(cfg, used, api[k])
  }

  predicate OkEvents(cfg: Config, used: set<string>, events: seq<Event>)
  {
    forall i | 0 <= i < |events| :: OkUnit(cfg, used, events[i].unit)
  }

  /** Every snapshot of a unit, wherever it is kept, is genuine and of a key in use. */
  predicate Faithful(cfg: Config, s: State)
  {
    OkStore(cfg, s.used, s.store) && OkApi(cfg, s.used, s.api) &&
    OkEvents(cfg, s.used, s.queued) && OkEvents(cfg, s.used, s.dequeued)
  }

  lemma PutKeepsFaithful(cfg: Config, s: State, u: QueueUnit)
    requires Faithful(cfg, s) && OkUnit(cfg, s.used, u)
    ensures Faithful(cfg, Put(s, u))
  {
  }

  lemma RemoveKeepsFaithful(cfg: Config, s: State, k: string)
    requires Faithful(cfg, s) && k in s.api
    ensures Faithful(cfg, Remove(s, k))
  {
  }

  lemma UserKeepsFaithful(cfg: Config, s: State, op: UserOp, s': State)
    requires Faithful(cfg, s) && UserStep(cfg, s, op, s')
    ensures Faithful(cfg, s')
  {
    match op
    case Tick(_) =>
    case CreateUnit(u) =>
      var s1 := s.(used := s.used + {Key(u)});
      assert Faithful(cfg, s1);
      PutKeepsFaithful(cfg, s1, u);
    case MutateUnit(u) => PutKeepsFaithful(cfg, s, u);
    case DeleteUnit(k) => RemoveKeepsFaithful(cfg, s, k);
  }

  lemma HandleKeepsFaithful(cfg: Config, s: State, ev: Event, id: ObjId)
    requires Faithful(cfg, s) && OkUnit(cfg, s.used, ev.unit) && id !in s.store
    ensures Faithful(cfg, HandleQueued(s, ev, id)) && NamesKept(s, HandleQueued(s, ev, id))
  {
  }

  lemma DeliverKeepsFaithful(cfg: Config, s: State, id: ObjId, s': State)
    requires Faithful(cfg, s) && DeliverStep(s, id, s')
    ensures Faithful(cfg, s') && NamesKept(s, s')
  {
    HandleKeepsFaithful(cfg, s.(queued := s.queued[1..]), s.queued[0], id);
  }

  lemma BumpKeepsFaithful(cfg: Config, s: State, o: ObjId)
    requires Faithful(cfg, s) && o in s.store
    ensures Faithful(cfg, Bumped(s, o)) && NamesKept(s, Bumped(s, o))
  {
  }

  lemma RefreshKeepsFaithful(cfg: Config, s: State, o: ObjId)
    requires Faithful(cfg, s) && o in s.store && Key(s.store[o].unit) in s.api
    ensures Faithful(cfg, Refreshed(s, o)) && NamesKept(s, Refreshed(s, o))
  {
  }

  lemma LoopKeepsFaithful(cfg: Config, s: State, op: LoopOp, s': State)
    requires Faithful(cfg, s) && LoopStep(cfg, s, op, s')
    ensures Faithful(cfg, s') && NamesKept(s, s')
  {
    if op == HandBump {
      BumpKeepsFaithful(cfg, s, s.sched.obj);
    } else if op == HandLookup(true) {
      RefreshKeepsFaithful(cfg, s, s.sched.obj);
    }
  }

  lemma FlightKeepsFaithful(cfg: Config, s: State, g: nat, op: FlightOp, s': State)
    requires Faithful(cfg, s) && FlightStep(s, g, op, s')
    ensures Faithful(cfg, s') && NamesKept(s, s')
  {
    var o := s.flights[g].obj;
    if op == DequeueOk {
      PutKeepsFaithful(cfg, s, s.api[Key(s.store[o].unit)].(phase := Dequeued));
    } else if op == FlightBump {
      BumpKeepsFaithful(cfg, s, o);
    } else if op == FlightLookup(true) {
      RefreshKeepsFaithful(cfg, s, o);
    }
  }

  // ---------- one add event per key ----------

  predicate NotDequeued(api: map<string, QueueUnit>, k: string)
  {
    k in api ==> api[k].phase != Dequeued
  }

  predicate Unheard(events: seq<Event>, k: string)
  {
    forall i | 0 <= i < |events| :: Key(events[i].unit) != k
  }

  /** A key in use that has not been Dequeued yet, and never has been. */
  predicate Young(s: State, k: string)
  {
    k in s.used && NotDequeued(s.api, k) && Unheard(s.dequeued, k)
  }

  predicate NoAdd(events: seq<Event>, k: string)
  {
    forall i | 0 <= i < |events| && events[i].OnAdd? :: Key(events[i].unit) != k
  }

  predicate DistinctAdds(events: seq<Event>)
  {
    forall i, j | 0 <= i < j < |events| && events[i].OnAdd? && events[j].OnAdd? ::
      Key(events[i].unit) != Key(events[j].unit)
  }

  /** A unit that is somewhere is young and has been added; one still to be added is young. */
  ghost predicate Tokens(s: State)
  {
    && (forall k, p | At(s, k, p) :: Young(s, k) && NoAdd(s.queued, k))
    && (forall i | 0 <= i < |s.queued| && s.queued[i].OnAdd? :: Young(s, Key(s.queued[i].unit)))
    && DistinctAdds(s.queued)
  }

  /** b is a without its head, or with one more event that is no add, or a itself. */
  predicate NoNewAdd(a: seq<Event>, b: seq<Event>)
  {
    || b == a
    || (|a| > 0 && b == a[1..])
    || (|b| == |a| + 1 && b[..|a|] == a && !b[|a|].OnAdd?)
  }

  lemma NoNewAddLaws(a: seq<Event>, b: seq<Event>)
    requires NoNewAdd(a, b)
    ensures DistinctAdds(a) ==> DistinctAdds(b)
    ensures forall k | NoAdd(a, k) :: NoAdd(b, k)
    ensures forall i | 0 <= i < |b| && b[i].OnAdd? :: b[i] in a
  {
  }

  /**
   Steps that bring in no unit keep the tokens: whoever stops being young must be nowhere
   afterwards.
   */
  lemma QuietKeepsTokens(s: State, e: Effect, s': State)
    requires Tokens(s) && Effected(s, e, s') && Sound(s, e)
    requires e.Arrive? ==> At(s, e.k, e.p)
    requires NoNewAdd(s.queued, s'.queued)
    requires forall k | Young(s, k) :: Young(s', k) || (NoAdd(s.queued, k) && forall p :: !At(s', k, p))
    ensures Tokens(s')
  {
    NoNewAddLaws(s.queued, s'.queued);
    forall k, p | At(s', k, p) ensures Young(s', k) && NoAdd(s'.queued, k) {
      var from := Origin(s, e, s', k, p);
      if e.Arrive? && e.k == k && e.p == p {
        assert At(s, k, p);
      } else {
        assert At(s, k, from);
      }
    }
    forall i | 0 <= i < |s'.queued| && s'.queued[i].OnAdd? ensures Young(s', Key(s'.queued[i].unit)) {
      var j :| 0 <= j < |s.queued| && s.queued[j] == s'.queued[i];
      assert Young(s, Key(s.queued[j].unit)) && !NoAdd(s.queued, Key(s.queued[j].unit));
    }
  }

  lemma CreateKeepsTokens(cfg: Config, s: State, u: QueueUnit, s': State)
    requires Faithful(cfg, s) && Tokens(s) && UserStep(cfg, s, CreateUnit(u), s') && Effected(s, Stay, s')
    ensures Tokens(s')
  {
    var k := Key(u);
    assert Unheard(s.dequeued, k) && NoAdd(s.queued, k);
    assert Events(None, Some(u), false) == [OnAdd(u)] && Events(None, Some(u), true) == [];
    assert s'.queued == s.queued + [OnAdd(u)] && s'.dequeued == s.dequeued;
    assert forall j | Young(s, j) :: Young(s', j) && j != k;
    forall j, p | At(s', j, p) ensures Young(s', j) && NoAdd(s'.queued, j) {
      assert ObjAt(s', j, p) == After(s, Stay, j, p);
      assert At(s, j, p);
    }
  }

  lemma DeliverAddKeepsTokens(s: State, e: Effect, s': State)
    requires Tokens(s) && |s.queued| > 0 && s.queued[0].OnAdd? && s'.queued == s.queued[1..]
    requires e.Arrive? && e.k == Key(s.queued[0].unit) && Effected(s, e, s') && Sound(s, e)
    requires s'.used == s.used && s'.api == s.api && s'.dequeued == s.dequeued
    ensures Tokens(s')
  {
    assert forall k :: Young(s', k) == Young(s, k);
    forall k, p | At(s', k, p) ensures Young(s', k) && NoAdd(s'.queued, k) {
      var from := Origin(s, e, s', k, p);
      if k == e.k {
        assert forall i | 0 <= i < |s'.queued| :: s'.queued[i] == s.queued[i + 1];
      } else {
        assert At(s, k, from);
      }
    }
  }

  // ---------- all of it together, step by step ----------

  ghost predicate Placed(cfg: Config, s: State)
  {
    Resolved(s) && Single(s) && Faithful(cfg, s) && Tokens(s)
  }

  /** What every step has to show about the places for the references to stay resolved. */
  lemma EffectKeepsPlaces(s: State, e: Effect, s': State)
    requires Resolved(s) && Single(s) && Effected(s, e, s') && Sound(s, e) && NamesKept(s, s')
    requires e.Arrive? ==> e.o in s'.store && s'.store[e.o].name == e.k
    requires HandObj(s').Some? ==> HandObj(s').value in s'.store
    requires forall g | g in s'.flights :: s'.flights[g].obj in s'.store
    ensures Resolved(s') && Single(s')
  {
    ResolvedKept(s, e, s');
    SoundKeepsSingle(s, e, s');
  }

  lemma MutateKeepsYoung(s: State, u: QueueUnit, k: string)
    requires Key(u) in s.api && (u.phase == Dequeued <==> s.api[Key(u)].phase == Dequeued) && Young(s, k)
    ensures Young(Put(s, u), k) && NoNewAdd(s.queued, Put(s, u).queued)
  {
  }

  lemma RemoveKeepsYoung(s: State, j: string, k: string)
    requires j in s.api && Key(s.api[j]) == j && Young(s, k)
    ensures Young(Remove(s, j), k) && NoNewAdd(s.queued, Remove(s, j).queued)
  {
  }

  lemma UserKeepsPlaced(cfg: Config, s: State, op: UserOp, s': State)
    requires Placed(cfg, s) && UserStep(cfg, s, op, s')
    ensures Placed(cfg, s')
  {
    UserKeepsFaithful(cfg, s, op, s');
    KeptEffect(s, s');
    EffectKeepsPlaces(s, Stay, s');
    match op
    case Tick(_) => QuietKeepsTokens(s, Stay, s');
    case CreateUnit(u) => CreateKeepsTokens(cfg, s, u, s');
    case MutateUnit(u) =>
      forall k | Young(s, k) ensures Young(s', k) { MutateKeepsYoung(s, u, k); }
      QuietKeepsTokens(s, Stay, s');
    case DeleteUnit(j) =>
      forall k | Young(s, k) ensures Young(s', k) { RemoveKeepsYoung(s, j, k); }
      QuietKeepsTokens(s, Stay, s');
  }

  lemma DeliverIsSound(s: State, id: ObjId, s': State)
    requires Resolved(s) && Single(s) && Tokens(s) && DeliverStep(s, id, s')
    ensures var e := ControllerEffectOf(s, DeliverQueued(id));
            && Sound(s, e)
            && (e.Arrive? ==> e.o in s'.store && s'.store[e.o].name == e.k)
            && (e.Arrive? ==> s.queued[0].OnAdd? || At(s, e.k, e.p))
  {
  }

  /** Steps on which the users of the API see nothing. */
  predicate ApiKept(s: State, s': State)
  {
    s'.used == s.used && s'.api == s.api && s'.dequeued == s.dequeued
  }

  lemma DeliverFrame(s: State, id: ObjId, s': State)
    requires DeliverStep(s, id, s')
    ensures s' == s.(queued := s.queued[1..], store := s'.store, queues := s'.queues,
                     firstSeen := s'.firstSeen, renewed := s'.renewed)
  {
  }

  lemma DeliverKeepsPlaced(cfg: Config, s: State, id: ObjId, s': State)
    requires Placed(cfg, s) && DeliverStep(s, id, s')
    ensures Placed(cfg, s')
  {
    var e := ControllerEffectOf(s, DeliverQueued(id));
    DeliverKeepsFaithful(cfg, s, id, s');
    DeliverEffect(s, id, s');
    DeliverIsSound(s, id, s');
    DeliverFrame(s, id, s');
    EffectKeepsPlaces(s, e, s');
    if s.queued[0].OnAdd? && e.Arrive? {
      DeliverAddKeepsTokens(s, e, s');
    } else {
      QuietKeepsTokens(s, e, s');
    }
  }

  lemma FlushKeepsPlaced(cfg: Config, s: State, q: string, moved: set<string>, s': State)
    requires Placed(cfg, s) && q in s.queues && moved <= s.queues[q].backoff.Keys
    requires s' == s.(queues := s.queues[q := Flushed(s.queues[q], moved)])
    ensures Placed(cfg, s')
  {
    FlushEffect(s, q, moved, s');
    assert Sound(s, Promote(q, moved));
    EffectKeepsPlaces(s, Promote(q, moved), s');
    assert ApiKept(s, s');
    QuietKeepsTokens(s, Promote(q, moved), s');
  }

  lemma HandledFrame(cfg: Config, s: State, s': State)
    requires HandleStep(cfg, s, s')
    ensures s' == s.(dequeued := s.dequeued[1..], ledger := s'.ledger, adopted := s'.adopted)
  {
  }

  lemma HandledKeepsPlaced(cfg: Config, s: State, s': State)
    requires Placed(cfg, s) && HandleStep(cfg, s, s')
    ensures Placed(cfg, s')
  {
    HandledFrame(cfg, s, s');
    assert OkEvents(cfg, s.used, s.dequeued[1..]);
    KeptEffect(s, s');
    EffectKeepsPlaces(s, Stay, s');
    forall k | Young(s, k) ensures Young(s', k) { }
    QuietKeepsTokens(s, Stay, s');
  }

  lemma ControllerKeepsPlaced(cfg: Config, s: State, op: ControllerOp, s': State)
    requires Placed(cfg, s) && ControllerStep(cfg, s, op, s')
    ensures Placed(cfg, s')
  {
    match op
    case DeliverQueued(id) => DeliverKeepsPlaced(cfg, s, id, s');
    case DeliverDequeued => HandledKeepsPlaced(cfg, s, s');
    case FlushQueue(q, moved) => FlushKeepsPlaced(cfg, s, q, moved, s');
  }

  lemma LoopFrame(cfg: Config, s: State, op: LoopOp, s': State)
    requires LoopStep(cfg, s, op, s')
    ensures s' == s.(queues := s'.queues, store := s'.store, ledger := s'.ledger, sched := s'.sched,
                     flights := s'.flights, passes := s'.passes, dropped := s'.dropped)
    ensures !op.ReserveUnit? ==> s'.ledger == s.ledger && s'.flights == s.flights
  {
  }

  /** What a Reserve that succeeds changes. */
  lemma ReserveFrame(cfg: Config, s: State, g: nat, s': State)
    requires s.sched.Filtering? && s.sched.obj in s.store && LoopStep(cfg, s, ReserveUnit(g), s')
    requires Key(s.store[s.sched.obj].unit) !in s.ledger.quRecord
    ensures g !in s.flights
    ensures s' == s.(ledger := AfterReserve(s.ledger, s.store[s.sched.obj].unit),
                     flights := s.flights[g := Launch(s)],
                     sched := Visiting(s.sched.rest, s.sched.pass))
  {
  }

  lemma LoopHolds(cfg: Config, s: State, op: LoopOp, s': State)
    requires Resolved(s) && LoopStep(cfg, s, op, s')
    ensures HandObj(s').Some? ==> HandObj(s').value in s'.store
    ensures forall g | g in s'.flights :: s'.flights[g].obj in s'.store
  {
  }

  lemma LoopIsSound(cfg: Config, s: State, op: LoopOp, s': State)
    requires LoopStep(cfg, s, op, s')
    ensures Sound(s, LoopEffectOf(s, op)) && !LoopEffectOf(s, op).Arrive?
  {
  }

  lemma LoopKeepsPlaced(cfg: Config, s: State, op: LoopOp, s': State)
    requires Placed(cfg, s) && LoopStep(cfg, s, op, s')
    ensures Placed(cfg, s')
  {
    var e := LoopEffectOf(s, op);
    LoopKeepsFaithful(cfg, s, op, s');
    LoopEffect(cfg, s, op, s');
    LoopFrame(cfg, s, op, s');
    LoopHolds(cfg, s, op, s');
    LoopIsSound(cfg, s, op, s');
    EffectKeepsPlaces(s, e, s');
    QuietKeepsTokens(s, e, s');
  }

  lemma DequeueFrame(s: State, g: nat, s': State)
    requires FlightStep(s, g, DequeueOk, s')
    ensures var k := Key(s.store[s.flights[g].obj].unit);
            var u := s.api[k].(phase := Dequeued);
            && s'.api == s.api[Key(u) := u] && s'.flights == s.flights - {g}
            && (Key(u) == k && NotDequeued(s.api, k) ==> s'.dequeued == s.dequeued + [OnAdd(u)])
            && s' == s.(api := s'.api, queued := s'.queued, dequeued := s'.dequeued, flights := s'.flights)
  {
  }

  lemma DequeueKeepsYoung(s: State, g: nat, s': State, j: string)
    requires FlightStep(s, g, DequeueOk, s') && Young(s, j)
    requires var k := Key(s.store[s.flights[g].obj].unit); k in s.api && Key(s.api[k]) == k && j != k
    ensures Young(s', j)
  {
  }

  lemma DequeueKeepsPlaced(cfg: Config, s: State, g: nat, s': State)
    requires Placed(cfg, s) && FlightStep(s, g, DequeueOk, s')
    ensures Placed(cfg, s')
  {
    var k := FlightName(s, g);
    var e := Leave(k, InFlight(g));
    FlightKeepsFaithful(cfg, s, g, DequeueOk, s');
    FlightEffect(s, g, DequeueOk, s');
    EffectKeepsPlaces(s, e, s');
    assert At(s, k, InFlight(g)) && Key(s.store[s.flights[g].obj].unit) == k && Key(s.api[k]) == k;
    forall p ensures !At(s', k, p) {
      if At(s', k, p) { var from := Origin(s, e, s', k, p); }
    }
    forall j | Young(s, j) && j != k ensures Young(s', j) { DequeueKeepsYoung(s, g, s', j); }
    QuietKeepsTokens(s, e, s');
  }

  lemma FlightFrame(s: State, g: nat, op: FlightOp, s': State)
    requires FlightStep(s, g, op, s') && op != DequeueOk
    ensures s' == s.(queues := s'.queues, store := s'.store, ledger := s'.ledger, flights := s'.flights,
                     dropped := s'.dropped)
    ensures op != UnreserveUnit ==> s'.ledger == s.ledger
  {
  }

  lemma FlightIsSound(s: State, g: nat, op: FlightOp, s': State)
    requires Resolved(s) && FlightStep(s, g, op, s')
    ensures Sound(s, FlightEffectOf(s, g, op)) && !FlightEffectOf(s, g, op).Arrive?
    ensures HandObj(s').Some? ==> HandObj(s').value in s'.store
    ensures forall x | x in s'.flights :: s'.flights[x].obj in s'.store
  {
  }

  lemma FlightKeepsPlaced(cfg: Config, s: State, g: nat, op: FlightOp, s': State)
    requires Placed(cfg, s) && FlightStep(s, g, op, s')
    ensures Placed(cfg, s')
  {
    if op == DequeueOk {
      DequeueKeepsPlaced(cfg, s, g, s');
    } else {
      var e := FlightEffectOf(s, g, op);
      FlightKeepsFaithful(cfg, s, g, op, s');
      FlightEffect(s, g, op, s');
      FlightFrame(s, g, op, s');
      FlightIsSound(s, g, op, s');
      EffectKeepsPlaces(s, e, s');
      QuietKeepsTokens(s, e, s');
    }
  }
}
