/**
 The ledger under every interleaving: which keys are recorded, that the totals agree with
 them, and that no total exceeds its limit.
 */
module AdmissionLedger {
  import opened Units
  import opened QuotaLedger
  import opened Admission
  import opened AdmissionPlaces
  import opened AdmissionTokens

  predicate DeletePending(events: seq<Event>, k: string)
  {
    exists i :: 0 <= i < |events| && events[i].OnDelete? && Key(events[i].unit) == k
  }

  predicate AddPending(events: seq<Event>, k: string)
  {
    exists i :: 0 <= i < |events| && events[i].OnAdd? && Key(events[i].unit) == k
  }

  /** k is Dequeued at the API server, or was when it was deleted and this is not handled yet. */
  predicate Claimed(api: map<string, QueueUnit>, dequeued: seq<Event>, k: string)
  {
    !NotDequeued(api, k) || DeletePending(dequeued, k)
  }

  /** A delete event is the last one about its key. */
  predicate LastWords(events: seq<Event>)
  {
    forall i, j | 0 <= i < j < |events| && events[i].OnDelete? :: Key(events[j].unit) != Key(events[i].unit)
  }

  /** The events still to be handled on the dequeued side. */
  ghost predicate DequeuedSide(cfg: Config, api: map<string, QueueUnit>, dequeued: seq<Event>, adopted: set<string>)
  {
    && LastWords(dequeued)
    && (forall k | DeletePending(dequeued, k) :: k !in api)
    && (forall i | 0 <= i < |dequeued| :: Claimed(api, dequeued, Key(dequeued[i].unit)))
    && (forall k | k in cfg.boot && k !in adopted :: AddPending(dequeued, k))
    && adopted <= cfg.boot.Keys
  }

  predicate HoldsReservation(f: Flight)
  {
    f.stage == Dequeuing || f.stage == Unreserving
  }

  /** A flight that has reserved k and not yet unreserved it. */
  predicate ReservingAt(s: State, k: string, g: nat)
  {
    At(s, k, InFlight(g)) && HoldsReservation(s.flights[g])
  }

  ghost predicate Reserving(s: State, k: string)
  {
    exists g :: ReservingAt(s, k, g)
  }

  /** A unit that was Dequeued before the start and has not been reported yet. */
  predicate Unreported(cfg: Config, s: State, k: string)
  {
    k in cfg.boot && k !in s.adopted
  }

  /** k has a reason to be recorded. */
  ghost predicate Due(cfg: Config, s: State, k: string)
  {
    Reserving(s, k) || (Claimed(s.api, s.dequeued, k) && !Unreported(cfg, s, k))
  }

  function Claims(cfg: Config, keys: set<string>): map<string, Claim>
  {
    map k | k in keys :: ClaimFor(cfg, k)
  }

  /** Exactly the due keys are recorded, and the totals are exactly theirs. */
  ghost predicate Accounted(cfg: Config, s: State)
  {
    && DequeuedSide(cfg, s.api, s.dequeued, s.adopted)
    && (forall k :: k in s.ledger.quRecord <==> Due(cfg, s, k))
    && Exact(s.ledger, Claims(cfg, s.ledger.quRecord))
  }

  // ---------- one reservation, one release ----------

  lemma LedgerReserves(cfg: Config, l: Ledger, u: QueueUnit)
    requires Exact(l, Claims(cfg, l.quRecord)) && Genuine(cfg, u) && Key(u) !in l.quRecord
    ensures var m := AfterReserve(l, u);
            && m.quRecord == l.quRecord + {Key(u)} && Exact(m, Claims(cfg, m.quRecord))
            && forall ns, r :: Reserved(m, ns, r) == Reserved(l, ns, r) + Share(ClaimOf(u), ns, r)
  {
    ReserveExact(l, Claims(cfg, l.quRecord), u);
    assert Claims(cfg, l.quRecord + {Key(u)}) == Claims(cfg, l.quRecord)[Key(u) := ClaimOf(u)];
    forall ns, r ensures Reserved(AfterReserve(l, u), ns, r) == Reserved(l, ns, r) + Share(ClaimOf(u), ns, r) {
      ReserveReads(l, u, ns, r);
    }
  }

  lemma LedgerReleases(cfg: Config, l: Ledger, u: QueueUnit)
    requires ConfigOk(cfg) && Exact(l, Claims(cfg, l.quRecord)) && Genuine(cfg, u) && Key(u) in l.quRecord
    ensures var m := AfterUnreserve(l, u);
            && m.quRecord == l.quRecord - {Key(u)} && Exact(m, Claims(cfg, m.quRecord))
            && forall ns, r :: Reserved(m, ns, r) == Reserved(l, ns, r) - Share(ClaimOf(u), ns, r)
  {
    var rec, k := Claims(cfg, l.quRecord), Key(u);
    assert rec[k] == ClaimOf(u);
    UnreserveExact(l, rec, u);
    assert Claims(cfg, l.quRecord - {k}) == rec - {k};
    forall ns, r ensures Reserved(AfterUnreserve(l, u), ns, r) == Reserved(l, ns, r) - Share(ClaimOf(u), ns, r) {
      TotalWithout(rec, k, ns, r);
    }
  }

  lemma YoungIsNotClaimed(s: State, k: string)
    requires Young(s, k)
    ensures !Claimed(s.api, s.dequeued, k)
  {
  }

  /** A unit that is somewhere is recorded only by the flight it is in. */
  lemma RecordedMeansFlying(cfg: Config, s: State, k: string, p: Place)
    requires Placed(cfg, s) && Accounted(cfg, s) && At(s, k, p)
    ensures k in s.ledger.quRecord <==> p.InFlight? && ReservingAt(s, k, p.g)
    ensures !Claimed(s.api, s.dequeued, k)
  {
    YoungIsNotClaimed(s, k);
    if g :| ReservingAt(s, k, g) {
      assert At(s, k, InFlight(g));
    }
  }

  lemma HandIsGenuine(cfg: Config, s: State)
    requires Resolved(s) && Faithful(cfg, s) && HandObj(s).Some?
    ensures HandObj(s).value in s.store && At(s, HandName(s), Hand)
    ensures Genuine(cfg, s.store[HandObj(s).value].unit) && Key(s.store[HandObj(s).value].unit) == HandName(s)
  {
    assert OkInfo(cfg, s.used, s.store[HandObj(s).value]);
  }

  /** The scheduler's Reserve never finds its unit recorded already. */
  lemma ReserveNeverRefused(cfg: Config, s: State)
    requires Placed(cfg, s) && Accounted(cfg, s) && HandObj(s).Some?
    ensures HandName(s) !in s.ledger.quRecord
    ensures Key(s.store[HandObj(s).value].unit) == HandName(s)
  {
    assert At(s, HandName(s), Hand);
    RecordedMeansFlying(cfg, s, HandName(s), Hand);
  }

  // ---------- the accounts, step by step ----------

  /** Steps on which neither the ledger nor anything it answers for changes. */
  lemma IdleKeepsAccounted(cfg: Config, s: State, s': State)
    requires Accounted(cfg, s) && s'.ledger == s.ledger && s'.adopted == s.adopted
    requires DequeuedSide(cfg, s'.api, s'.dequeued, s'.adopted)
    requires forall k :: Claimed(s'.api, s'.dequeued, k) == Claimed(s.api, s.dequeued, k)
    requires forall k, g :: ReservingAt(s', k, g) == ReservingAt(s, k, g)
    ensures Accounted(cfg, s')
  {
  }

  lemma NamesKeepReserving(s: State, s': State)
    requires Resolved(s) && NamesKept(s, s') && s'.flights == s.flights
    ensures forall k, g :: ReservingAt(s', k, g) == ReservingAt(s, k, g)
  {
  }

  /** Neither a failed Dequeue nor ErrorFunc takes or gives up a reservation. */
  lemma FlightKeepsHolding(s: State, g: nat, op: FlightOp, s': State, x: nat)
    requires FlightStep(s, g, op, s') && op != DequeueOk && op != UnreserveUnit
    ensures x in s.flights && HoldsReservation(s.flights[x]) <==> x in s'.flights && HoldsReservation(s'.flights[x])
    ensures x in s.flights && x in s'.flights ==> s'.flights[x].obj == s.flights[x].obj
  {
  }

  lemma FlightKeepsReserving(s: State, g: nat, op: FlightOp, s': State)
    requires Resolved(s) && NamesKept(s, s') && FlightStep(s, g, op, s') && op != DequeueOk && op != UnreserveUnit
    ensures forall k, x :: ReservingAt(s', k, x) == ReservingAt(s, k, x)
  {
    forall k, x ensures ReservingAt(s', k, x) == ReservingAt(s, k, x) {
      FlightKeepsHolding(s, g, op, s', x);
    }
  }

  lemma AppendLaws(events: seq<Event>, ev: Event)
    ensures forall k :: DeletePending(events + [ev], k) <==>
                        DeletePending(events, k) || (ev.OnDelete? && Key(ev.unit) == k)
    ensures forall k :: AddPending(events + [ev], k) <==> AddPending(events, k) || (ev.OnAdd? && Key(ev.unit) == k)
    ensures LastWords(events) && !DeletePending(events, Key(ev.unit)) ==> LastWords(events + [ev])
  {
    var more := events + [ev];
    assert more[|events|] == ev && forall i | 0 <= i < |events| :: more[i] == events[i];
    forall k
      ensures DeletePending(events, k) ==> DeletePending(more, k)
      ensures AddPending(events, k) ==> AddPending(more, k)
    {
      if i :| 0 <= i < |events| && events[i].OnDelete? && Key(events[i].unit) == k { assert more[i].OnDelete?; }
      if i :| 0 <= i < |events| && events[i].OnAdd? && Key(events[i].unit) == k { assert more[i].OnAdd?; }
    }
  }

  /** The unit of one key changes at the API server and the dequeued side hears of it. */
  lemma ReportKeepsSide(cfg: Config, api: map<string, QueueUnit>, api': map<string, QueueUnit>,
                        dequeued: seq<Event>, ev: Event, adopted: set<string>)
    requires DequeuedSide(cfg, api, dequeued, adopted) && Key(ev.unit) in api
    requires api - {Key(ev.unit)} == api' - {Key(ev.unit)}
    requires if ev.OnDelete? then Key(ev.unit) !in api' else !NotDequeued(api', Key(ev.unit))
    ensures DequeuedSide(cfg, api', dequeued + [ev], adopted)
    ensures forall k | k != Key(ev.unit) :: Claimed(api', dequeued + [ev], k) == Claimed(api, dequeued, k)
    ensures Claimed(api', dequeued + [ev], Key(ev.unit))
  {
    AppendLaws(dequeued, ev);
    AgreeElsewhere(api, api', Key(ev.unit));
    var more := dequeued + [ev];
    forall i | 0 <= i < |more| ensures Claimed(api', more, Key(more[i].unit)) {
      if i < |dequeued| { assert more[i] == dequeued[i]; }
    }
  }

  /** The unit of one key changes at the API server without the dequeued side hearing of it. */
  lemma SilenceKeepsSide(cfg: Config, api: map<string, QueueUnit>, api': map<string, QueueUnit>,
                         dequeued: seq<Event>, adopted: set<string>, k: string)
    requires DequeuedSide(cfg, api, dequeued, adopted) && api - {k} == api' - {k}
    requires NotDequeued(api, k) && NotDequeued(api', k) && !DeletePending(dequeued, k)
    ensures DequeuedSide(cfg, api', dequeued, adopted)
    ensures forall j :: Claimed(api', dequeued, j) == Claimed(api, dequeued, j)
  {
    AgreeElsewhere(api, api', k);
  }

  lemma AgreeElsewhere(api: map<string, QueueUnit>, api': map<string, QueueUnit>, k: string)
    requires api - {k} == api' - {k}
    ensures forall j | j != k :: (j in api <==> j in api') && NotDequeued(api, j) == NotDequeued(api', j)
  {
    forall j | j != k ensures (j in api <==> j in api') && NotDequeued(api, j) == NotDequeued(api', j) {
      assert j in api <==> j in api - {k};
      assert j in api' <==> j in api' - {k};
      if j in api { assert (api - {k})[j] == api[j] && (api' - {k})[j] == api'[j]; }
    }
  }

  lemma UserKeepsSide(cfg: Config, s: State, op: UserOp, s': State)
    requires Faithful(cfg, s) && DequeuedSide(cfg, s.api, s.dequeued, s.adopted) && UserStep(cfg, s, op, s')
    ensures DequeuedSide(cfg, s'.api, s'.dequeued, s'.adopted)
    ensures forall k :: Claimed(s'.api, s'.dequeued, k) == Claimed(s.api, s.dequeued, k)
  {
    match op
    case Tick(_) =>
    case CreateUnit(u) =>
      assert Unheard(s.dequeued, Key(u)) && s'.dequeued == s.dequeued;
      SilenceKeepsSide(cfg, s.api, s'.api, s.dequeued, s.adopted, Key(u));
    case MutateUnit(u) =>
      if u.phase == Dequeued {
        ReportKeepsSide(cfg, s.api, s'.api, s.dequeued, OnUpdate(u), s.adopted);
      } else {
        assert s'.dequeued == s.dequeued;
        SilenceKeepsSide(cfg, s.api, s'.api, s.dequeued, s.adopted, Key(u));
      }
    case DeleteUnit(k) =>
      assert Key(s.api[k]) == k;
      if s.api[k].phase == Dequeued {
        ReportKeepsSide(cfg, s.api, s'.api, s.dequeued, OnDelete(s.api[k]), s.adopted);
      } else {
        assert s'.dequeued == s.dequeued;
        SilenceKeepsSide(cfg, s.api, s'.api, s.dequeued, s.adopted, k);
      }
  }

  lemma UserKeepsAccounted(cfg: Config, s: State, op: UserOp, s': State)
    requires Placed(cfg, s) && Accounted(cfg, s) && UserStep(cfg, s, op, s')
    ensures Accounted(cfg, s') && s'.ledger == s.ledger && s'.adopted == s.adopted
  {
    UserKeepsSide(cfg, s, op, s');
    assert s'.ledger == s.ledger && s'.flights == s.flights && s'.store == s.store && s'.adopted == s.adopted;
    NamesKeepReserving(s, s');
    IdleKeepsAccounted(cfg, s, s');
  }

  // ---------- the dequeued handler ----------

  lemma BeheadLaws(events: seq<Event>)
    requires |events| > 0
    ensures LastWords(events) ==> LastWords(events[1..])
    ensures forall k :: DeletePending(events, k) <==>
                        DeletePending(events[1..], k) || (events[0].OnDelete? && Key(events[0].unit) == k)
    ensures forall k :: AddPending(events, k) <==>
                        AddPending(events[1..], k) || (events[0].OnAdd? && Key(events[0].unit) == k)
    ensures LastWords(events) && events[0].OnDelete? ==> Unheard(events[1..], Key(events[0].unit))
  {
  }

  /** After its head is handled the dequeued side is in order again, and only the head's claim can lapse. */
  lemma HandledKeepsSide(cfg: Config, s: State, s': State)
    requires DequeuedSide(cfg, s.api, s.dequeued, s.adopted) && HandleStep(cfg, s, s')
    ensures DequeuedSide(cfg, s'.api, s'.dequeued, s'.adopted)
    ensures var ev := s.dequeued[0];
            && Claimed(s.api, s.dequeued, Key(ev.unit))
            && (ev.OnDelete? ==> !Unreported(cfg, s, Key(ev.unit)))
            && forall k :: Claimed(s'.api, s'.dequeued, k) <==>
                             Claimed(s.api, s.dequeued, k) && !(ev.OnDelete? && k == Key(ev.unit))
  {
    HandledFrame(cfg, s, s');
    BeheadLaws(s.dequeued);
    var ev, rest := s.dequeued[0], s'.dequeued;
    assert Claimed(s.api, s.dequeued, Key(s.dequeued[0].unit));
    if ev.OnDelete? {
      assert DeletePending(s.dequeued, Key(ev.unit));
      assert !DeletePending(rest, Key(ev.unit)) && !AddPending(rest, Key(ev.unit));
    }
    forall i | 0 <= i < |rest| ensures Claimed(s'.api, rest, Key(rest[i].unit)) {
      assert rest[i] == s.dequeued[i + 1];
    }
  }

  /** What is reserved beyond the claims of the given keys. */
  ghost function Net(cfg: Config, s: State, base: set<string>, ns: string, r: string): int
  {
    Reserved(s.ledger, ns, r) - Total(Claims(cfg, base), ns, r)
  }

  /** The recorded units that were Dequeued before the start. */
  function Inherited(cfg: Config, s: State): set<string>
  {
    s.ledger.quRecord * cfg.boot.Keys
  }

  /** Nothing more is reserved beyond what is recorded from before the start. */
  ghost predicate NetFalls(cfg: Config, s: State, s': State)
  {
    forall ns, r :: Net(cfg, s', Inherited(cfg, s'), ns, r) <= Net(cfg, s, Inherited(cfg, s), ns, r)
  }

  /** Nothing more is reserved at all. */
  ghost predicate LedgerFalls(s: State, s': State)
  {
    forall ns, r :: Reserved(s'.ledger, ns, r) <= Reserved(s.ledger, ns, r)
  }

  lemma ShareNonNegative(cfg: Config, k: string, ns: string, r: string)
    requires ConfigOk(cfg)
    ensures Share(ClaimFor(cfg, k), ns, r) >= 0
  {
  }

  /** A key the dequeued side has heard of is not in flight any more. */
  lemma HeardIsNotReserving(cfg: Config, s: State, i: nat)
    requires Placed(cfg, s) && i < |s.dequeued|
    ensures !Reserving(s, Key(s.dequeued[i].unit))
  {
  }

  lemma SameFlightsSameReserving(s: State, s': State)
    requires s'.flights == s.flights && s'.store == s.store
    ensures forall k :: Reserving(s', k) == Reserving(s, k)
  {
    forall k ensures Reserving(s', k) == Reserving(s, k) {
      assert forall g :: ReservingAt(s', k, g) == ReservingAt(s, k, g);
    }
  }

  /** One key becomes due and is recorded, or stops being due and is released. */
  lemma TurnKeepsAccounted(cfg: Config, s: State, k: string, on: bool, s': State)
    requires forall j :: j in s.ledger.quRecord <==> Due(cfg, s, j)
    requires forall j :: Due(cfg, s', j) <==> if j == k then on else Due(cfg, s, j)
    requires s'.ledger.quRecord == if on then s.ledger.quRecord + {k} else s.ledger.quRecord - {k}
    requires DequeuedSide(cfg, s'.api, s'.dequeued, s'.adopted)
    requires Exact(s'.ledger, Claims(cfg, s'.ledger.quRecord))
    ensures Accounted(cfg, s')
  {
  }

  lemma OneMoreClaim(cfg: Config, keys: set<string>, k: string, ns: string, r: string)
    requires k !in keys
    ensures Total(Claims(cfg, keys + {k}), ns, r) == Total(Claims(cfg, keys), ns, r) + Share(ClaimFor(cfg, k), ns, r)
  {
    TotalWithout(Claims(cfg, keys + {k}), k, ns, r);
    assert Claims(cfg, keys + {k}) - {k} == Claims(cfg, keys);
  }

  /** Recording a unit from before the start leaves what is reserved beyond those as it is. */
  lemma AdoptNet(cfg: Config, s: State, k: string, s': State)
    requires k in cfg.boot && k !in s.ledger.quRecord && s'.ledger.quRecord == s.ledger.quRecord + {k}
    requires forall ns, r :: Reserved(s'.ledger, ns, r) == Reserved(s.ledger, ns, r) + Share(ClaimFor(cfg, k), ns, r)
    ensures NetFalls(cfg, s, s')
  {
    assert Inherited(cfg, s') == Inherited(cfg, s) + {k};
    forall ns, r ensures Net(cfg, s', Inherited(cfg, s'), ns, r) <= Net(cfg, s, Inherited(cfg, s), ns, r) {
      OneMoreClaim(cfg, Inherited(cfg, s), k, ns, r);
    }
  }

  /** Releasing any unit gives quota back, outright and on balance. */
  lemma ReleaseNet(cfg: Config, s: State, k: string, s': State)
    requires ConfigOk(cfg) && k in s.ledger.quRecord && s'.ledger.quRecord == s.ledger.quRecord - {k}
    requires forall ns, r :: Reserved(s'.ledger, ns, r) == Reserved(s.ledger, ns, r) - Share(ClaimFor(cfg, k), ns, r)
    ensures NetFalls(cfg, s, s') && LedgerFalls(s, s')
  {
    var base, base' := Inherited(cfg, s), Inherited(cfg, s');
    assert if k in cfg.boot then base == base' + {k} else base' == base;
    forall ns, r
      ensures Net(cfg, s', base', ns, r) <= Net(cfg, s, base, ns, r)
      ensures Reserved(s'.ledger, ns, r) <= Reserved(s.ledger, ns, r)
    {
      ShareNonNegative(cfg, k, ns, r);
      if k in cfg.boot { OneMoreClaim(cfg, base', k, ns, r); }
    }
  }

  /** A boot unit's add event reserves it, once. */
  lemma AdoptKeepsAccounted(cfg: Config, s: State, s': State)
    requires Placed(cfg, s) && Accounted(cfg, s) && HandleStep(cfg, s, s')
    requires s.dequeued[0].OnAdd? && Unreported(cfg, s, Key(s.dequeued[0].unit))
    ensures Accounted(cfg, s') && NetFalls(cfg, s, s')
  {
    var u, k := s.dequeued[0].unit, Key(s.dequeued[0].unit);
    HandledFrame(cfg, s, s');
    HandledKeepsSide(cfg, s, s');
    SameFlightsSameReserving(s, s');
    HeardIsNotReserving(cfg, s, 0);
    assert OkUnit(cfg, s.used, s.dequeued[0].unit);
    assert !Due(cfg, s, k);
    LedgerReserves(cfg, s.ledger, u);
    TurnKeepsAccounted(cfg, s, k, true, s');
    AdoptNet(cfg, s, k, s');
  }

  /** Any other add event, and every update event, changes nothing. */
  lemma EchoChangesNothing(cfg: Config, s: State, s': State)
    requires Placed(cfg, s) && Accounted(cfg, s) && HandleStep(cfg, s, s')
    requires !s.dequeued[0].OnDelete? && (s.dequeued[0].OnAdd? ==> !Unreported(cfg, s, Key(s.dequeued[0].unit)))
    ensures s' == s.(dequeued := s.dequeued[1..])
    ensures Accounted(cfg, s')
  {
    var k := Key(s.dequeued[0].unit);
    HandledKeepsSide(cfg, s, s');
    assert s.dequeued[0].OnAdd? ==> Due(cfg, s, k);
    assert s'.ledger == s.ledger && s'.adopted == s.adopted;
    assert s' == s.(dequeued := s.dequeued[1..]);
    NamesKeepReserving(s, s');
    IdleKeepsAccounted(cfg, s, s');
  }

  /** A delete event finds its unit recorded and releases it. */
  lemma ReleaseKeepsAccounted(cfg: Config, s: State, s': State)
    requires ConfigOk(cfg) && Placed(cfg, s) && Accounted(cfg, s) && HandleStep(cfg, s, s')
    requires s.dequeued[0].OnDelete?
    ensures Accounted(cfg, s') && NetFalls(cfg, s, s') && LedgerFalls(s, s')
    ensures s'.ledger.quRecord == s.ledger.quRecord - {Key(s.dequeued[0].unit)}
    ensures Key(s.dequeued[0].unit) in s.ledger.quRecord
  {
    var u, k := s.dequeued[0].unit, Key(s.dequeued[0].unit);
    HandledFrame(cfg, s, s');
    HandledKeepsSide(cfg, s, s');
    SameFlightsSameReserving(s, s');
    HeardIsNotReserving(cfg, s, 0);
    assert OkUnit(cfg, s.used, s.dequeued[0].unit);
    assert Due(cfg, s, k);
    LedgerReleases(cfg, s.ledger, u);
    TurnKeepsAccounted(cfg, s, k, false, s');
    ReleaseNet(cfg, s, k, s');
  }

  lemma ControllerKeepsAccounted(cfg: Config, s: State, op: ControllerOp, s': State)
    requires ConfigOk(cfg) && Placed(cfg, s) && Accounted(cfg, s) && ControllerStep(cfg, s, op, s')
    ensures Accounted(cfg, s') && NetFalls(cfg, s, s') && s'.sched == s.sched
    ensures s.adopted == cfg.boot.Keys ==> LedgerFalls(s, s') && s'.ledger.quRecord <= s.ledger.quRecord
  {
    match op
    case DeliverQueued(id) =>
      DeliverFrame(s, id, s');
      DeliverKeepsFaithful(cfg, s, id, s');
      NamesKeepReserving(s, s');
      IdleKeepsAccounted(cfg, s, s');
    case DeliverDequeued =>
      HandledFrame(cfg, s, s');
      if s.dequeued[0].OnDelete? {
        ReleaseKeepsAccounted(cfg, s, s');
      } else if s.dequeued[0].OnAdd? && Unreported(cfg, s, Key(s.dequeued[0].unit)) {
        AdoptKeepsAccounted(cfg, s, s');
      } else {
        EchoChangesNothing(cfg, s, s');
      }
    case FlushQueue(q, moved) =>
      assert s' == s.(queues := s'.queues);
      NamesKeepReserving(s, s');
      IdleKeepsAccounted(cfg, s, s');
  }

  // ---------- the scheduler loop ----------

  lemma ReserveMakesDue(cfg: Config, s: State, g: nat, s': State)
    requires g !in s.flights && HandObj(s).Some? && s'.store == s.store && s'.adopted == s.adopted && ApiKept(s, s')
    requires s'.flights.Keys == s.flights.Keys + {g} && forall x | x in s.flights :: s'.flights[x] == s.flights[x]
    requires s'.flights[g].obj == HandObj(s).value && s'.flights[g].stage == Dequeuing
    ensures forall j :: Due(cfg, s', j) <==> if j == HandName(s) then true else Due(cfg, s, j)
  {
    assert ReservingAt(s', HandName(s), g);
    forall j ensures Due(cfg, s', j) <==> Due(cfg, s, j) || j == HandName(s) {
      if x :| ReservingAt(s, j, x) { assert ReservingAt(s', j, x); }
      if x :| ReservingAt(s', j, x) { assert x == g || ReservingAt(s, j, x); }
    }
  }

  /** Reserve records the unit in hand and adds its resources. */
  lemma ReserveRecords(cfg: Config, s: State, g: nat, s': State)
    requires Placed(cfg, s) && Accounted(cfg, s)
    requires s.sched.Filtering? && s.sched.obj in s.store && LoopStep(cfg, s, ReserveUnit(g), s')
    ensures s'.ledger.quRecord == s.ledger.quRecord + {HandName(s)} && s'.sched.Visiting?
    ensures Exact(s'.ledger, Claims(cfg, s'.ledger.quRecord))
    ensures var u := s.store[s.sched.obj].unit;
            forall ns, r :: Reserved(s'.ledger, ns, r) == Reserved(s.ledger, ns, r) + Share(ClaimOf(u), ns, r)
  {
    ReserveNeverRefused(cfg, s);
    HandIsGenuine(cfg, s);
    LedgerReserves(cfg, s.ledger, s.store[s.sched.obj].unit);
    ReserveFrame(cfg, s, g, s');
  }

  lemma ReserveKeepsAccounted(cfg: Config, s: State, g: nat, s': State)
    requires Placed(cfg, s) && Accounted(cfg, s)
    requires s.sched.Filtering? && s.sched.obj in s.store && LoopStep(cfg, s, ReserveUnit(g), s')
    ensures Accounted(cfg, s')
  {
    ReserveNeverRefused(cfg, s);
    ReserveRecords(cfg, s, g, s');
    ReserveFrame(cfg, s, g, s');
    ReserveMakesDue(cfg, s, g, s');
    TurnKeepsAccounted(cfg, s, HandName(s), true, s');
  }

  lemma LoopKeepsAccounted(cfg: Config, s: State, op: LoopOp, s': State)
    requires Placed(cfg, s) && Accounted(cfg, s) && LoopStep(cfg, s, op, s')
    ensures Accounted(cfg, s')
    ensures !op.ReserveUnit? ==> s'.ledger == s.ledger && s'.adopted == s.adopted
  {
    if op.ReserveUnit? {
      ReserveKeepsAccounted(cfg, s, op.g, s');
    } else {
      LoopFrame(cfg, s, op, s');
      LoopKeepsFaithful(cfg, s, op, s');
      NamesKeepReserving(s, s');
      IdleKeepsAccounted(cfg, s, s');
    }
  }

  // ---------- dequeue goroutines ----------

  /** While g holds k, the key is young, so nothing else can make it due. */
  lemma FlightHolds(cfg: Config, s: State, g: nat)
    requires Placed(cfg, s) && Accounted(cfg, s) && g in s.flights
    ensures var k := FlightName(s, g);
            && At(s, k, InFlight(g)) && Young(s, k) && !Claimed(s.api, s.dequeued, k) && !Unreported(cfg, s, k)
            && Key(s.store[s.flights[g].obj].unit) == k && OkUnit(cfg, s.used, s.store[s.flights[g].obj].unit)
            && forall x | ReservingAt(s, k, x) :: x == g
  {
    var k := FlightName(s, g);
    assert At(s, k, InFlight(g));
    YoungIsNotClaimed(s, k);
    assert Unreported(cfg, s, k) ==> AddPending(s.dequeued, k);
    forall x | ReservingAt(s, k, x) ensures x == g {
      assert At(s, k, InFlight(x));
    }
  }

  lemma DequeueKeepsDue(cfg: Config, s: State, g: nat, s': State)
    requires var k := FlightName(s, g);
             && ReservingAt(s, k, g) && !Unreported(cfg, s, k) && Claimed(s'.api, s'.dequeued, k)
             && forall j | j != k :: Claimed(s'.api, s'.dequeued, j) == Claimed(s.api, s.dequeued, j)
    requires s'.store == s.store && s'.adopted == s.adopted && s'.flights == s.flights - {g}
    ensures forall j :: Due(cfg, s', j) == Due(cfg, s, j)
  {
    forall j ensures Due(cfg, s', j) == Due(cfg, s, j) {
      if x :| ReservingAt(s, j, x) { assert x == g || ReservingAt(s', j, x); }
      if x :| ReservingAt(s', j, x) { assert ReservingAt(s, j, x); }
    }
  }

  /** A successful Dequeue hands its record over from the flight to the Dequeued unit. */
  lemma DequeueKeepsAccounted(cfg: Config, s: State, g: nat, s': State)
    requires Placed(cfg, s) && Accounted(cfg, s) && FlightStep(s, g, DequeueOk, s')
    ensures Accounted(cfg, s') && s'.ledger == s.ledger && s'.adopted == s.adopted && s'.sched == s.sched
  {
    var k := FlightName(s, g);
    FlightHolds(cfg, s, g);
    DequeueFrame(s, g, s');
    var u := s.api[k].(phase := Dequeued);
    assert Key(s.api[k]) == k;
    ReportKeepsSide(cfg, s.api, s'.api, s.dequeued, OnAdd(u), s.adopted);
    DequeueKeepsDue(cfg, s, g, s');
  }

  lemma UnreserveEndsDue(cfg: Config, s: State, g: nat, s': State)
    requires var k := FlightName(s, g);
             && At(s, k, InFlight(g)) && !Claimed(s.api, s.dequeued, k)
             && (forall x | ReservingAt(s, k, x) :: x == g)
             && s'.flights == s.flights[g := s.flights[g].(stage := Erring(Bump))]
    requires s'.store == s.store && s'.adopted == s.adopted && ApiKept(s, s')
    ensures forall j :: Due(cfg, s', j) <==> if j == FlightName(s, g) then false else Due(cfg, s, j)
  {
    forall j ensures Due(cfg, s', j) <==> Due(cfg, s, j) && j != FlightName(s, g) {
      if x :| ReservingAt(s, j, x) { assert x == g || ReservingAt(s', j, x); }
      if x :| ReservingAt(s', j, x) { assert x != g && ReservingAt(s, j, x); }
    }
  }

  /** A failed Dequeue releases exactly what its own pass reserved. */
  lemma UnreserveKeepsAccounted(cfg: Config, s: State, g: nat, s': State)
    requires ConfigOk(cfg) && Placed(cfg, s) && Accounted(cfg, s) && FlightStep(s, g, UnreserveUnit, s')
    ensures Accounted(cfg, s') && NetFalls(cfg, s, s') && LedgerFalls(s, s') && s'.sched == s.sched
    ensures s'.ledger.quRecord <= s.ledger.quRecord
  {
    var k, u := FlightName(s, g), s.store[s.flights[g].obj].unit;
    FlightHolds(cfg, s, g);
    assert ReservingAt(s, k, g);
    LedgerReleases(cfg, s.ledger, u);
    FlightFrame(s, g, UnreserveUnit, s');
    UnreserveEndsDue(cfg, s, g, s');
    TurnKeepsAccounted(cfg, s, k, false, s');
    ReleaseNet(cfg, s, k, s');
  }

  lemma FlightKeepsAccounted(cfg: Config, s: State, g: nat, op: FlightOp, s': State)
    requires ConfigOk(cfg) && Placed(cfg, s) && Accounted(cfg, s) && FlightStep(s, g, op, s')
    ensures Accounted(cfg, s') && NetFalls(cfg, s, s') && LedgerFalls(s, s') && s'.sched == s.sched
    ensures s'.ledger.quRecord <= s.ledger.quRecord
  {
    if op == DequeueOk {
      DequeueKeepsAccounted(cfg, s, g, s');
    } else if op == UnreserveUnit {
      UnreserveKeepsAccounted(cfg, s, g, s');
    } else {
      FlightFrame(s, g, op, s');
      FlightKeepsFaithful(cfg, s, g, op, s');
      FlightKeepsReserving(s, g, op, s');
      IdleKeepsAccounted(cfg, s, s');
    }
  }
}
