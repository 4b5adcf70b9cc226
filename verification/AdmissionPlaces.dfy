/**
 Where a unit can be, what each step moves, and the proof that no unit is ever in two
 places at once.
 */
module AdmissionPlaces {
  import opened Orders
  import opened Units
  import opened QueueSpec
  import opened Admission

  /** The places that can hold a unit: a heap, the scheduler's hand, a dequeue in flight. */
  datatype Place = Active(q: string) | Backing(q: string) | Hand | InFlight(g: nat)

  function HandObj(s: State): Option<ObjId>
  {
    match s.sched
    case Filtering(o, _, _, _, _) => Some(o)
    case Failing(o, _, _, _, _) => Some(o)
    case _ => None
  }

  function NameOf(s: State, o: ObjId): string
  {
    if o in s.store then s.store[o].name else ""
  }

  /** The object a place holds under key k. */
  function ObjAt(s: State, k: string, p: Place): Option<ObjId>
  {
    match p
    case Active(q) => if q in s.queues && k in s.queues[q].active then Some(s.queues[q].active[k]) else None
    case Backing(q) => if q in s.queues && k in s.queues[q].backoff then Some(s.queues[q].backoff[k]) else None
    case Hand => if HandObj(s).Some? && NameOf(s, HandObj(s).value) == k then HandObj(s) else None
    case InFlight(g) => if g in s.flights && NameOf(s, s.flights[g].obj) == k then Some(s.flights[g].obj) else None
  }

  predicate At(s: State, k: string, p: Place)
  {
    ObjAt(s, k, p).Some?
  }

  /** Each key is in at most one place. */
  ghost predicate Single(s: State)
  {
    forall k, p1, p2 | At(s, k, p1) && At(s, k, p2) :: p1 == p2
  }

  /** Every reference resolves, under the name it is filed under. */
  ghost predicate Resolved(s: State)
  {
    && (forall k, p | At(s, k, p) :: ObjAt(s, k, p).value in s.store && s.store[ObjAt(s, k, p).value].name == k)
    && (HandObj(s).Some? ==> HandObj(s).value in s.store)
    && (forall g | g in s.flights :: s.flights[g].obj in s.store)
  }

  // ---------- what a step moves ----------

  datatype Effect =
    | Stay
    | Leave(k: string, p: Place)
    | Arrive(k: string, p: Place, o: ObjId)
    | Move(k: string, from: Place, to: Place)
    | Promote(q: string, moved: set<string>)

  function After(s: State, e: Effect, j: string, p: Place): Option<ObjId>
  {
    match e
    case Stay => ObjAt(s, j, p)
    case Leave(k, x) => if j == k && p == x then None else ObjAt(s, j, p)
    case Arrive(k, x, o) => if j == k && p == x then Some(o) else ObjAt(s, j, p)
    case Move(k, x, y) =>
      if j == k && p == y then ObjAt(s, k, x) else if j == k && p == x then None else ObjAt(s, j, p)
    case Promote(q, moved) =>
      if j in moved && p == Active(q) then ObjAt(s, j, Backing(q))
      else if j in moved && p == Backing(q) then None
      else ObjAt(s, j, p)
  }

  ghost predicate Effected(s: State, e: Effect, s': State)
  {
    forall j, p :: ObjAt(s', j, p) == After(s, e, j, p)
  }

  /** A unit arrives only if it is nowhere else, and only moves from where it is. */
  ghost predicate Sound(s: State, e: Effect)
  {
    match e
    case Arrive(k, x, _) => forall p | At(s, k, p) :: p == x
    case Move(k, x, y) => At(s, k, x) && x != y
    case Promote(q, moved) => forall j | j in moved :: At(s, j, Backing(q))
    case _ => true
  }

  /** A sound effect keeps every key in at most one place. */
  lemma SoundKeepsSingle(s: State, e: Effect, s': State)
    requires Single(s) && Effected(s, e, s') && Sound(s, e)
    ensures Single(s')
  {
    forall k, p1, p2 | At(s', k, p1) && At(s', k, p2) ensures p1 == p2 {
      var a := Origin(s, e, s', k, p1);
      var b := Origin(s, e, s', k, p2);
      if !(e.Arrive? && e.k == k) {
        assert At(s, k, a) && At(s, k, b);
      }
    }
  }

  /** Where the unit now at p was before the step. */
  lemma Origin(s: State, e: Effect, s': State, k: string, p: Place) returns (from: Place)
    requires Effected(s, e, s') && Sound(s, e) && At(s', k, p)
    ensures (e.Arrive? && e.k == k && p == e.p) || (At(s, k, from) && ObjAt(s, k, from) == ObjAt(s', k, p))
    ensures from == p || (e.Move? && k == e.k && from == e.from && p == e.to)
                      || (e.Promote? && k in e.moved && from == Backing(e.q) && p == Active(e.q))
    ensures e.Leave? && k == e.k ==> p != e.p
    ensures e.Move? && k == e.k ==> p != e.from
    ensures e.Promote? && k in e.moved ==> p != Backing(e.q)
  {
    assert ObjAt(s', k, p) == After(s, e, k, p);
    from := p;
    if e.Move? && k == e.k && p == e.to {
      from := e.from;
    } else if e.Promote? && k in e.moved && p == Active(e.q) {
      from := Backing(e.q);
    }
  }

  function HandName(s: State): string
  {
    if HandObj(s).Some? then NameOf(s, HandObj(s).value) else ""
  }

  function FlightName(s: State, g: nat): string
  {
    if g in s.flights then NameOf(s, s.flights[g].obj) else ""
  }

  function ControllerEffectOf(s: State, op: ControllerOp): Effect
  {
    match op
    case DeliverQueued(id) =>
      if |s.queued| == 0 || s.queued[0].unit.consumerNamespace !in s.queues then Stay
      else
        var k, q := Key(s.queued[0].unit), s.queued[0].unit.consumerNamespace;
        if s.queued[0].OnAdd? then Arrive(k, Active(q), id)
        else if At(s, k, Active(q)) then
          (if s.queued[0].OnUpdate? then Arrive(k, Active(q), id) else Leave(k, Active(q)))
        else if At(s, k, Backing(q)) then
          (if s.queued[0].OnUpdate? then Arrive(k, Backing(q), id) else Leave(k, Backing(q)))
        else Stay
    case DeliverDequeued => Stay
    case FlushQueue(q, moved) => Promote(q, moved)
  }

  function LoopEffectOf(s: State, op: LoopOp): Effect
  {
    match op
    case PopUnit(k) => if s.sched.Visiting? && |s.sched.rest| > 0 then Move(k, Active(s.sched.rest[0]), Hand) else Stay
    case ReserveUnit(g) => if HandName(s) in s.ledger.quRecord then Stay else Move(HandName(s), Hand, InFlight(g))
    case HandLookup(found) => if found then Stay else Leave(HandName(s), Hand)
    case HandReenter =>
      if s.sched.Failing? && s.sched.q in s.queues then Move(HandName(s), Hand, Backing(s.sched.q))
      else Leave(HandName(s), Hand)
    case _ => Stay
  }

  function FlightEffectOf(s: State, g: nat, op: FlightOp): Effect
  {
    match op
    case DequeueOk => Leave(FlightName(s, g), InFlight(g))
    case FlightLookup(found) => if found then Stay else Leave(FlightName(s, g), InFlight(g))
    case FlightReenter(q) =>
      if q in s.queues then Move(FlightName(s, g), InFlight(g), Backing(q)) else Leave(FlightName(s, g), InFlight(g))
    case _ => Stay
  }

  /** A step that may change objects in place, but none of their names. */
  ghost predicate NamesKept(s: State, s': State)
  {
    forall o | o in s.store :: o in s'.store && s'.store[o].name == s.store[o].name
  }

  /** The same objects in the scheduler's hand and in the same flights. */
  predicate HoldersKept(s: State, s': State)
  {
    && HandObj(s') == HandObj(s)
    && s'.flights.Keys == s.flights.Keys
    && forall g | g in s.flights :: s'.flights[g].obj == s.flights[g].obj
  }

  lemma KeptEffect(s: State, s': State)
    requires Resolved(s) && NamesKept(s, s') && HoldersKept(s, s') && s'.queues == s.queues
    ensures Effected(s, Stay, s')
  {
  }

  /** One queue changes and the holders do not. */
  ghost predicate QueueChanged(s: State, q: string, s': State)
  {
    && NamesKept(s, s') && HoldersKept(s, s')
    && q in s.queues && q in s'.queues && s'.queues == s.queues[q := s'.queues[q]]
  }

  lemma QueueEffect(s: State, q: string, s': State, j: string, p: Place)
    requires Resolved(s) && QueueChanged(s, q, s') && p != Active(q) && p != Backing(q)
    ensures ObjAt(s', j, p) == ObjAt(s, j, p)
  {
  }

  lemma HandleAddEffect(s: State, ev: Event, id: ObjId, s': State)
    requires Resolved(s) && ev.OnAdd? && id !in s.store && s' == HandleQueued(s, ev, id)
    requires ev.unit.consumerNamespace in s.queues
    ensures Effected(s, Arrive(Key(ev.unit), Active(ev.unit.consumerNamespace), id), s')
  {
    var q := ev.unit.consumerNamespace;
    forall j, p ensures ObjAt(s', j, p) == After(s, Arrive(Key(ev.unit), Active(q), id), j, p) {
      if p != Active(q) && p != Backing(q) { QueueEffect(s, q, s', j, p); }
    }
  }

  lemma HandleUpdateEffect(s: State, ev: Event, id: ObjId, s': State)
    requires Resolved(s) && ev.OnUpdate? && id !in s.store && s' == HandleQueued(s, ev, id)
    requires ev.unit.consumerNamespace in s.queues
    ensures var q, k := ev.unit.consumerNamespace, Key(ev.unit);
            Effected(s, if At(s, k, Active(q)) then Arrive(k, Active(q), id)
                        else if At(s, k, Backing(q)) then Arrive(k, Backing(q), id) else Stay, s')
  {
    var q := ev.unit.consumerNamespace;
    forall j, p | p != Active(q) && p != Backing(q) ensures ObjAt(s', j, p) == ObjAt(s, j, p) {
      QueueEffect(s, q, s', j, p);
    }
  }

  lemma HandleDeleteEffect(s: State, ev: Event, id: ObjId, s': State)
    requires Resolved(s) && ev.OnDelete? && s' == HandleQueued(s, ev, id)
    requires ev.unit.consumerNamespace in s.queues
    ensures var q, k := ev.unit.consumerNamespace, Key(ev.unit);
            Effected(s, if At(s, k, Active(q)) then Leave(k, Active(q))
                        else if At(s, k, Backing(q)) then Leave(k, Backing(q)) else Stay, s')
  {
    var q := ev.unit.consumerNamespace;
    forall j, p | p != Active(q) && p != Backing(q) ensures ObjAt(s', j, p) == ObjAt(s, j, p) {
      QueueEffect(s, q, s', j, p);
    }
  }

  lemma DeliverEffect(s: State, id: ObjId, s': State)
    requires Resolved(s) && DeliverStep(s, id, s')
    ensures Effected(s, ControllerEffectOf(s, DeliverQueued(id)), s')
  {
    var s1, ev := s.(queued := s.queued[1..]), s.queued[0];
    KeptEffect(s, s1);
    assert Resolved(s1);
    if ev.unit.consumerNamespace in s.queues {
      match ev
      case OnAdd(_) => HandleAddEffect(s1, ev, id, s');
      case OnUpdate(_) => HandleUpdateEffect(s1, ev, id, s');
      case OnDelete(_) => HandleDeleteEffect(s1, ev, id, s');
    }
  }

  lemma FlushEffect(s: State, q: string, moved: set<string>, s': State)
    requires Resolved(s) && q in s.queues && moved <= s.queues[q].backoff.Keys
    requires s' == s.(queues := s.queues[q := Flushed(s.queues[q], moved)])
    ensures Effected(s, Promote(q, moved), s')
  {
    forall j, p ensures ObjAt(s', j, p) == After(s, Promote(q, moved), j, p) {
      if p != Active(q) && p != Backing(q) { QueueEffect(s, q, s', j, p); }
    }
  }

  lemma PopEffect(cfg: Config, s: State, k: string, s': State)
    requires Resolved(s) && LoopStep(cfg, s, PopUnit(k), s')
    ensures Effected(s, LoopEffectOf(s, PopUnit(k)), s')
  {
    var q := s.sched.rest[0];
    assert At(s, k, Active(q));
    forall j, p ensures ObjAt(s', j, p) == After(s, Move(k, Active(q), Hand), j, p) {
      match p
      case Active(x) =>
      case Backing(x) =>
      case Hand =>
      case InFlight(g) =>
    }
  }

  /** The unit in hand takes off: a new flight holds it. */
  lemma HandTakesOff(s: State, g: nat, s': State)
    requires Resolved(s) && HandObj(s).Some? && g !in s.flights
    requires s'.store == s.store && s'.queues == s.queues && HandObj(s') == None
    requires g in s'.flights && s'.flights == s.flights[g := s'.flights[g]] && s'.flights[g].obj == HandObj(s).value
    ensures Effected(s, Move(HandName(s), Hand, InFlight(g)), s')
  {
  }

  lemma ReserveEffect(cfg: Config, s: State, g: nat, s': State)
    requires Resolved(s) && LoopStep(cfg, s, ReserveUnit(g), s')
    requires Key(s.store[s.sched.obj].unit) == HandName(s)
    ensures Effected(s, LoopEffectOf(s, ReserveUnit(g)), s')
  {
    if HandName(s) in s.ledger.quRecord {
      KeptEffect(s, s');
    } else {
      HandTakesOff(s, g, s');
    }
  }

  /** The unit in hand goes: to a backoff heap that does not hold its key, or nowhere. */
  lemma HandGoes(s: State, s': State)
    requires Resolved(s) && Single(s) && s.sched.Failing? && s.sched.obj in s.store
    requires s'.store == s.store && s'.flights == s.flights && s'.sched.Visiting?
    requires s'.queues == s.queues || s'.queues == Reentered(s, s.sched.obj, s.sched.q).queues
    ensures s'.queues == s.queues ==> Effected(s, Leave(HandName(s), Hand), s')
    ensures s.sched.q in s.queues && s'.queues == Reentered(s, s.sched.obj, s.sched.q).queues ==>
              Effected(s, Move(HandName(s), Hand, Backing(s.sched.q)), s')
  {
    var k, q := HandName(s), s.sched.q;
    assert At(s, k, Hand);
    assert !At(s, k, Active(q)) && !At(s, k, Backing(q));
    forall j, p
      ensures s'.queues == s.queues ==> ObjAt(s', j, p) == After(s, Leave(k, Hand), j, p)
      ensures q in s.queues && s'.queues == Reentered(s, s.sched.obj, q).queues ==>
                ObjAt(s', j, p) == After(s, Move(k, Hand, Backing(q)), j, p)
    {
      match p
      case Active(x) =>
      case Backing(x) =>
      case Hand =>
      case InFlight(g) =>
    }
  }

  lemma FlightGoes(s: State, g: nat, q: string, s': State)
    requires Resolved(s) && Single(s) && g in s.flights
    requires s'.store == s.store && s'.flights == s.flights - {g} && s'.sched == s.sched
    requires s'.queues == s.queues || s'.queues == Reentered(s, s.flights[g].obj, q).queues
    ensures s'.queues == s.queues ==> Effected(s, Leave(FlightName(s, g), InFlight(g)), s')
    ensures q in s.queues && s'.queues == Reentered(s, s.flights[g].obj, q).queues ==>
              Effected(s, Move(FlightName(s, g), InFlight(g), Backing(q)), s')
  {
    var k := FlightName(s, g);
    assert At(s, k, InFlight(g));
    assert !At(s, k, Active(q)) && !At(s, k, Backing(q));
    forall j, p
      ensures s'.queues == s.queues ==> ObjAt(s', j, p) == After(s, Leave(k, InFlight(g)), j, p)
      ensures q in s.queues && s'.queues == Reentered(s, s.flights[g].obj, q).queues ==>
                ObjAt(s', j, p) == After(s, Move(k, InFlight(g), Backing(q)), j, p)
    {
      match p
      case Active(x) =>
      case Backing(x) =>
      case Hand =>
      case InFlight(x) =>
    }
  }

  lemma LoopEffect(cfg: Config, s: State, op: LoopOp, s': State)
    requires Resolved(s) && Single(s) && LoopStep(cfg, s, op, s')
    requires HandObj(s).Some? ==> Key(s.store[HandObj(s).value].unit) == HandName(s)
    ensures Effected(s, LoopEffectOf(s, op), s')
  {
    if op.PopUnit? {
      PopEffect(cfg, s, op.k, s');
    } else if op.ReserveUnit? {
      ReserveEffect(cfg, s, op.g, s');
    } else if op.HandReenter? || op == HandLookup(false) {
      HandGoes(s, s');
    } else {
      KeptEffect(s, s');
    }
  }

  lemma FlightHeld(s: State, g: nat, op: FlightOp, s': State)
    requires FlightStep(s, g, op, s') && !op.FlightReenter? && op != DequeueOk && op != FlightLookup(false)
    ensures NamesKept(s, s') && HoldersKept(s, s') && s'.queues == s.queues
  {
  }

  lemma FlightEffect(s: State, g: nat, op: FlightOp, s': State)
    requires Resolved(s) && Single(s) && FlightStep(s, g, op, s')
    ensures Effected(s, FlightEffectOf(s, g, op), s')
  {
    if op.FlightReenter? || op == DequeueOk || op == FlightLookup(false) {
      FlightGoes(s, g, if op.FlightReenter? then op.q else "", s');
    } else {
      FlightHeld(s, g, op, s');
      KeptEffect(s, s');
    }
  }

  // ---------- references ----------

  lemma ResolvedKept(s: State, e: Effect, s': State)
    requires Resolved(s) && Effected(s, e, s') && Sound(s, e) && NamesKept(s, s')
    requires e.Arrive? ==> e.o in s'.store && s'.store[e.o].name == e.k
    requires HandObj(s').Some? ==> HandObj(s').value in s'.store
    requires forall g | g in s'.flights :: s'.flights[g].obj in s'.store
    ensures Resolved(s')
  {
  }
}
