/**
 What ErrorFunc does to an info, in the scheduler loop and in the goroutines alike: an info's
 attempts count its failures, its timestamp is that of the last one, and a unit comes back with
 exactly one more failure than it was popped with.
 */
module AdmissionErrors {
  import opened Orders
  import opened Units
  import opened Admission
  import opened AdmissionPlaces
  import opened AdmissionTokens
  import opened AdmissionTheorems
  import opened AdmissionBackoff

  /** The object for which a step begins ErrorFunc. */
  function Fails(s: State, step: Step): Option<ObjId>
  {
    match step
    case ByLoop(HandBump) => HandObj(s)
    case ByFlight(g, FlightBump) => if g in s.flights then Some(s.flights[g].obj) else None
    case _ => None
  }

  /** The object for which a step looks the unit up, and finds it. */
  function LooksUp(s: State, step: Step): Option<ObjId>
  {
    match step
    case ByLoop(HandLookup(true)) => HandObj(s)
    case ByFlight(g, FlightLookup(true)) => if g in s.flights then Some(s.flights[g].obj) else None
    case _ => None
  }

  // ---------- what one step does to the infos ----------

  /** An info's attempts, timestamp and unit after a step, from before it. */
  ghost predicate InfoFollows(s: State, step: Step, s': State, o: ObjId)
    requires o in s'.store
  {
    && s'.store[o].attempts == (if o in s.store then s.store[o].attempts else 0)
                               + (if Fails(s, step) == Some(o) then 1 else 0)
    && s'.store[o].timestamp == (if o in s.store && Fails(s, step) != Some(o) then s.store[o].timestamp else s.now)
    && (o in s.store && LooksUp(s, step) != Some(o) ==> s'.store[o].unit == s.store[o].unit)
    && (o in s.store && LooksUp(s, step) == Some(o) ==>
          Key(s.store[o].unit) in s.api && s'.store[o].unit == s.api[Key(s.store[o].unit)])
    && (o !in s.store ==> |s.queued| > 0 && s'.store[o].unit == s.queued[0].unit)
  }

  ghost predicate InfosFollow(s: State, step: Step, s': State)
  {
    && (forall o | o in s.store :: o in s'.store)
    && (forall o | o in s'.store :: InfoFollows(s, step, s', o))
    && (forall o | Fails(s, step) == Some(o) :: o in s.store)
  }

  lemma UserInfosFollow(cfg: Config, s: State, op: UserOp, s': State)
    requires UserStep(cfg, s, op, s')
    ensures InfosFollow(s, ByUser(op), s')
  {
  }

  lemma ControllerInfosFollow(cfg: Config, s: State, op: ControllerOp, s': State)
    requires ControllerStep(cfg, s, op, s')
    ensures InfosFollow(s, ByController(op), s')
  {
    if op.DeliverQueued? {
      DeliverInfosFollow(s, op.id, s');
    } else if op.DeliverDequeued? {
      HandledFrame(cfg, s, s');
    }
  }

  lemma DeliverInfosFollow(s: State, id: ObjId, s': State)
    requires DeliverStep(s, id, s')
    ensures InfosFollow(s, ByController(DeliverQueued(id)), s')
  {
  }

  lemma LoopInfosFollow(cfg: Config, s: State, op: LoopOp, s': State)
    requires Resolved(s) && LoopStep(cfg, s, op, s')
    ensures InfosFollow(s, ByLoop(op), s')
  {
    if op == HandBump || op == HandLookup(true) {
      HandInfosFollow(cfg, s, op, s');
    } else {
      LoopKeepsStore(cfg, s, op, s');
    }
  }

  lemma LoopKeepsStore(cfg: Config, s: State, op: LoopOp, s': State)
    requires LoopStep(cfg, s, op, s') && op != HandBump && op != HandLookup(true)
    ensures s'.store == s.store
  {
  }

  lemma HandInfosFollow(cfg: Config, s: State, op: LoopOp, s': State)
    requires LoopStep(cfg, s, op, s') && (op == HandBump || op == HandLookup(true))
    ensures InfosFollow(s, ByLoop(op), s')
  {
  }

  lemma FlightInfosFollow(s: State, g: nat, op: FlightOp, s': State)
    requires FlightStep(s, g, op, s')
    ensures InfosFollow(s, ByFlight(g, op), s')
  {
    if op != FlightBump && op != FlightLookup(true) {
      assert s'.store == s.store;
    }
  }

  lemma StepInfosFollow(cfg: Config, s: State, step: Step, s': State)
    requires Resolved(s) && Next(cfg, s, step, s')
    ensures InfosFollow(s, step, s')
  {
    match step
    case ByUser(op) => UserInfosFollow(cfg, s, op, s');
    case ByController(op) => ControllerInfosFollow(cfg, s, op, s');
    case ByLoop(op) => LoopInfosFollow(cfg, s, op, s');
    case ByFlight(g, op) => FlightInfosFollow(s, g, op, s');
  }

  // ---------- over a whole run ----------

  /** How often ErrorFunc has begun for object o in the first n steps. */
  function Failures(states: seq<State>, steps: seq<Step>, n: nat, o: ObjId): nat
    requires n <= |steps| && |states| == |steps| + 1
  {
    if n == 0 then 0
    else Failures(states, steps, n - 1, o) + (if Fails(states[n - 1], steps[n - 1]) == Some(o) then 1 else 0)
  }

  /** When object o was made or ErrorFunc last began for it, in the first n steps. */
  function LastStamp(states: seq<State>, steps: seq<Step>, n: nat, o: ObjId): int
    requires n <= |steps| && |states| == |steps| + 1
  {
    if n == 0 then 0
    else if o !in states[n - 1].store || Fails(states[n - 1], steps[n - 1]) == Some(o) then states[n - 1].now
    else LastStamp(states, steps, n - 1, o)
  }

  /** An info has as many attempts as failures, and is stamped with the time of the last of them. */
  lemma {:induction false} AttemptsAreFailures(cfg: Config, states: seq<State>, steps: seq<Step>, n: nat, o: ObjId)
    requires ConfigOk(cfg) && IsRun(cfg, states, steps) && n < |states|
    ensures Failures(states, steps, n, o) == if o in states[n].store then states[n].store[o].attempts else 0
    ensures o in states[n].store ==> states[n].store[o].timestamp == LastStamp(states, steps, n, o)
  {
    for m := 0 to n
      invariant Counted(states, steps, m, o)
    {
      FollowsAt(cfg, states, steps, m);
      CountGoesOn(states, steps, m, o);
    }
  }

  ghost predicate Counted(states: seq<State>, steps: seq<Step>, n: nat, o: ObjId)
    requires n <= |steps| && |states| == |steps| + 1
  {
    && Failures(states, steps, n, o) == (if o in states[n].store then states[n].store[o].attempts else 0)
    && (o in states[n].store ==> states[n].store[o].timestamp == LastStamp(states, steps, n, o))
  }

  lemma CountGoesOn(states: seq<State>, steps: seq<Step>, n: nat, o: ObjId)
    requires n < |steps| && |states| == |steps| + 1 && Counted(states, steps, n, o)
    requires InfosFollow(states[n], steps[n], states[n + 1])
    ensures Counted(states, steps, n + 1, o)
  {
    if o in states[n + 1].store { assert InfoFollows(states[n], steps[n], states[n + 1], o); }
  }

  lemma FollowsAt(cfg: Config, states: seq<State>, steps: seq<Step>, n: nat)
    requires ConfigOk(cfg) && IsRun(cfg, states, steps) && n < |steps|
    ensures Placed(cfg, states[n]) && Next(cfg, states[n], steps[n], states[n + 1])
    ensures InfosFollow(states[n], steps[n], states[n + 1])
  {
    RunKeepsInv(cfg, states, steps, n);
    StepInfosFollow(cfg, states[n], steps[n], states[n + 1]);
  }

  // ---------- from a pop to the return ----------

  /** p is the scheduler's hand or a flight. */
  predicate Holder(p: Place)
  {
    p.Hand? || p.InFlight?
  }

  /** What is held at p has been bumped by ErrorFunc. */
  predicate PastBump(s: State, p: Place)
  {
    || (p.Hand? && s.sched.Failing? && s.sched.stage != Bump)
    || (p.InFlight? && p.g in s.flights && s.flights[p.g].stage.Erring? && s.flights[p.g].stage.stage != Bump)
  }

  /** And looked up. */
  predicate PastLookup(s: State, p: Place)
  {
    || (p.Hand? && s.sched.Failing? && s.sched.stage == Reenter)
    || (p.InFlight? && p.g in s.flights && s.flights[p.g].stage == Erring(Reenter))
  }

  /** Held before the step at from and after it at p: what it does to the stage. */
  ghost predicate StageFollows(s: State, step: Step, s': State, k: string, from: Place, p: Place)
  {
    && Holder(from) && At(s, k, from) && At(s', k, p) && ObjAt(s', k, p) == ObjAt(s, k, from)
    && (Fails(s, step) == ObjAt(s, k, from) ==> !PastBump(s, from))
    && (PastBump(s', p) <==> PastBump(s, from) || Fails(s, step) == ObjAt(s, k, from))
    && (PastLookup(s', p) <==> PastLookup(s, from) || LooksUp(s, step) == ObjAt(s, k, from))
    && (LooksUp(s, step) == ObjAt(s, k, from) ==> !PastLookup(s, from))
  }

  /** Or it was popped by the step. */
  ghost predicate PoppedNow(s: State, step: Step, s': State, k: string, p: Place)
  {
    && step == ByLoop(PopUnit(k)) && p.Hand? && s.sched.Visiting? && |s.sched.rest| > 0
    && At(s, k, Active(s.sched.rest[0])) && ObjAt(s', k, p) == ObjAt(s, k, Active(s.sched.rest[0]))
    && !PastBump(s', p) && !PastLookup(s', p)
  }

  /** Nothing comes to a holder except by a move to it. */
  lemma StaysPut(s: State, e: Effect, s': State, k: string, p: Place)
    requires Effected(s, e, s') && Holder(p) && At(s', k, p)
    requires (e.Move? ==> e.to != p) && (e.Arrive? ==> e.p != p)
    ensures At(s, k, p) && ObjAt(s', k, p) == ObjAt(s, k, p)
  {
    assert ObjAt(s', k, p) == After(s, e, k, p);
  }

  /** A step that leaves the hand and the flights alone. */
  lemma QuietHolds(s: State, step: Step, s': State, e: Effect, k: string, p: Place)
    requires Effected(s, e, s') && Holder(p) && At(s', k, p) && !e.Move? && (e.Arrive? ==> e.p != p)
    requires s'.sched == s.sched && s'.flights == s.flights && Fails(s, step) == None && LooksUp(s, step) == None
    ensures StageFollows(s, step, s', k, p, p)
  {
    StaysPut(s, e, s', k, p);
  }

  lemma ControllerHolds(cfg: Config, s: State, op: ControllerOp, s': State, k: string, p: Place)
    requires Placed(cfg, s) && ControllerStep(cfg, s, op, s') && At(s', k, p) && Holder(p)
    ensures StageFollows(s, ByController(op), s', k, p, p)
  {
    if op.DeliverQueued? {
      DeliverEffect(s, op.id, s');
      DeliverFrame(s, op.id, s');
      QuietHolds(s, ByController(op), s', ControllerEffectOf(s, op), k, p);
    } else if op.DeliverDequeued? {
      HandledFrame(cfg, s, s');
      KeptEffect(s, s');
      QuietHolds(s, ByController(op), s', Stay, k, p);
    } else {
      FlushEffect(s, op.q, op.moved, s');
      QuietHolds(s, ByController(op), s', Promote(op.q, op.moved), k, p);
    }
  }

  lemma UserHolds(cfg: Config, s: State, op: UserOp, s': State, k: string, p: Place)
    requires Resolved(s) && UserStep(cfg, s, op, s') && At(s', k, p) && Holder(p)
    ensures StageFollows(s, ByUser(op), s', k, p, p)
  {
    KeptEffect(s, s');
    QuietHolds(s, ByUser(op), s', Stay, k, p);
  }

  /** The object in hand is held nowhere else, and so is that of a flight. */
  lemma HolderOf(s: State, k: string, p: Place)
    requires Resolved(s) && Single(s)
    ensures At(s, k, p) && HandObj(s).Some? && ObjAt(s, k, p) == HandObj(s) ==> p == Hand
    ensures forall g | g in s.flights && At(s, k, p) && ObjAt(s, k, p) == Some(s.flights[g].obj) :: p == InFlight(g)
  {
    if At(s, k, p) && HandObj(s).Some? && ObjAt(s, k, p) == HandObj(s) { assert At(s, k, Hand); }
    forall g | g in s.flights && At(s, k, p) && ObjAt(s, k, p) == Some(s.flights[g].obj) ensures p == InFlight(g) {
      assert At(s, k, InFlight(g));
    }
  }

  lemma PopHolds(cfg: Config, s: State, j: string, s': State, k: string, p: Place)
    requires Placed(cfg, s) && LoopStep(cfg, s, PopUnit(j), s') && At(s', k, p) && Holder(p)
    ensures PoppedNow(s, ByLoop(PopUnit(j)), s', k, p) || StageFollows(s, ByLoop(PopUnit(j)), s', k, p, p)
  {
    var e := LoopEffectOf(s, PopUnit(j));
    PopEffect(cfg, s, j, s');
    if p == Hand {
      assert ObjAt(s', k, p) == After(s, e, k, p);
      assert !At(s, k, Hand);
    } else {
      StaysPut(s, e, s', k, p);
      LoopFrame(cfg, s, PopUnit(j), s');
    }
  }

  lemma ReserveHolds(cfg: Config, s: State, g: nat, s': State, k: string, p: Place) returns (from: Place)
    requires Placed(cfg, s) && s.sched.Filtering? && s.sched.obj in s.store && LoopStep(cfg, s, ReserveUnit(g), s')
    requires Key(s.store[s.sched.obj].unit) == HandName(s) && At(s', k, p) && Holder(p)
    ensures StageFollows(s, ByLoop(ReserveUnit(g)), s', k, from, p)
  {
    ReserveEffect(cfg, s, g, s');
    if HandName(s) in s.ledger.quRecord {
      StaysPut(s, Stay, s', k, p);
      from := p;
    } else {
      ReserveFrame(cfg, s, g, s');
      from := LaunchHolds(s, g, s', k, p);
    }
  }

  lemma LaunchHolds(s: State, g: nat, s': State, k: string, p: Place) returns (from: Place)
    requires Resolved(s) && s.sched.Filtering? && g !in s.flights && At(s', k, p) && Holder(p)
    requires Effected(s, Move(HandName(s), Hand, InFlight(g)), s')
    requires s'.flights == s.flights[g := Launch(s)] && s'.sched.Visiting?
    ensures StageFollows(s, ByLoop(ReserveUnit(g)), s', k, from, p)
  {
    assert ObjAt(s', k, p) == After(s, Move(HandName(s), Hand, InFlight(g)), k, p);
    from := if p == InFlight(g) then Hand else p;
  }

  /** The stages after a step of the loop that neither pops nor reserves. */
  lemma LoopStages(cfg: Config, s: State, op: LoopOp, s': State)
    requires LoopStep(cfg, s, op, s') && !op.PopUnit? && !op.ReserveUnit?
    ensures s'.flights == s.flights
    ensures var fails, looks := Fails(s, ByLoop(op)), LooksUp(s, ByLoop(op));
            && (fails.Some? ==> fails == HandObj(s) && !PastBump(s, Hand))
            && (looks.Some? ==> looks == HandObj(s) && !PastLookup(s, Hand))
            && (HandObj(s').Some? ==>
                  && (PastBump(s', Hand) <==> PastBump(s, Hand) || fails.Some?)
                  && (PastLookup(s', Hand) <==> PastLookup(s, Hand) || looks.Some?))
  {
  }

  lemma RestHolds(cfg: Config, s: State, op: LoopOp, s': State, k: string, p: Place)
    requires Placed(cfg, s) && LoopStep(cfg, s, op, s') && At(s', k, p) && Holder(p)
    requires !op.PopUnit? && !op.ReserveUnit?
    requires HandObj(s).Some? ==> Key(s.store[HandObj(s).value].unit) == HandName(s)
    ensures StageFollows(s, ByLoop(op), s', k, p, p)
  {
    RestStaysPut(cfg, s, op, s', k, p);
    LoopStages(cfg, s, op, s');
    HandStage(s, ByLoop(op), s', k, p);
  }

  lemma RestStaysPut(cfg: Config, s: State, op: LoopOp, s': State, k: string, p: Place)
    requires Resolved(s) && Single(s) && LoopStep(cfg, s, op, s') && At(s', k, p) && Holder(p)
    requires !op.PopUnit? && !op.ReserveUnit?
    requires HandObj(s).Some? ==> Key(s.store[HandObj(s).value].unit) == HandName(s)
    ensures At(s, k, p) && ObjAt(s', k, p) == ObjAt(s, k, p)
  {
    LoopEffect(cfg, s, op, s');
    StaysPut(s, LoopEffectOf(s, op), s', k, p);
  }

  /** From the stages of the hand to that of whatever is held at p. */
  lemma HandStage(s: State, step: Step, s': State, k: string, p: Place)
    requires Resolved(s) && Single(s) && Holder(p) && At(s, k, p) && At(s', k, p) && ObjAt(s', k, p) == ObjAt(s, k, p)
    requires s'.flights == s.flights
    requires Fails(s, step).Some? ==> Fails(s, step) == HandObj(s) && !PastBump(s, Hand)
    requires LooksUp(s, step).Some? ==> LooksUp(s, step) == HandObj(s) && !PastLookup(s, Hand)
    requires HandObj(s').Some? ==>
               && (PastBump(s', Hand) <==> PastBump(s, Hand) || Fails(s, step).Some?)
               && (PastLookup(s', Hand) <==> PastLookup(s, Hand) || LooksUp(s, step).Some?)
    ensures StageFollows(s, step, s', k, p, p)
  {
    HolderOf(s, k, p);
  }

  lemma LoopHoldsOn(cfg: Config, s: State, op: LoopOp, s': State, k: string, p: Place) returns (from: Place)
    requires Placed(cfg, s) && LoopStep(cfg, s, op, s') && At(s', k, p) && Holder(p)
    ensures PoppedNow(s, ByLoop(op), s', k, p) || StageFollows(s, ByLoop(op), s', k, from, p)
  {
    HandIsFaithful(cfg, s);
    from := p;
    if op.PopUnit? {
      PopHolds(cfg, s, op.k, s', k, p);
    } else if op.ReserveUnit? {
      from := ReserveHolds(cfg, s, op.g, s', k, p);
    } else {
      RestHolds(cfg, s, op, s', k, p);
    }
  }

  lemma FlightHoldsOn(cfg: Config, s: State, g: nat, op: FlightOp, s': State, k: string, p: Place)
    requires Placed(cfg, s) && FlightStep(s, g, op, s') && At(s', k, p) && Holder(p)
    ensures StageFollows(s, ByFlight(g, op), s', k, p, p)
  {
    FlightStaysPut(s, g, op, s', k, p);
    FlightStages(s, g, op, s');
    FlightStage(s, ByFlight(g, op), g, s', k, p);
  }

  lemma FlightStaysPut(s: State, g: nat, op: FlightOp, s': State, k: string, p: Place)
    requires Resolved(s) && Single(s) && FlightStep(s, g, op, s') && At(s', k, p) && Holder(p)
    ensures g in s.flights && At(s, k, p) && ObjAt(s', k, p) == ObjAt(s, k, p)
  {
    FlightEffect(s, g, op, s');
    StaysPut(s, FlightEffectOf(s, g, op), s', k, p);
  }

  /** From the stages of flight g to that of whatever is held at p. */
  lemma FlightStage(s: State, step: Step, g: nat, s': State, k: string, p: Place)
    requires Resolved(s) && Single(s) && Holder(p) && At(s, k, p) && At(s', k, p) && ObjAt(s', k, p) == ObjAt(s, k, p)
    requires g in s.flights && s'.sched == s.sched
    requires forall x | x in s'.flights && x != g :: x in s.flights && s'.flights[x] == s.flights[x]
    requires Fails(s, step).Some? ==> Fails(s, step) == Some(s.flights[g].obj) && !PastBump(s, InFlight(g))
    requires LooksUp(s, step).Some? ==> LooksUp(s, step) == Some(s.flights[g].obj) && !PastLookup(s, InFlight(g))
    requires g in s'.flights ==>
               && (PastBump(s', InFlight(g)) <==> PastBump(s, InFlight(g)) || Fails(s, step).Some?)
               && (PastLookup(s', InFlight(g)) <==> PastLookup(s, InFlight(g)) || LooksUp(s, step).Some?)
    ensures StageFollows(s, step, s', k, p, p)
  {
    HolderOf(s, k, p);
  }

  /** The stages after a step of goroutine g. */
  lemma FlightStages(s: State, g: nat, op: FlightOp, s': State)
    requires FlightStep(s, g, op, s')
    ensures s'.sched == s.sched
    ensures forall x | x in s'.flights && x != g :: x in s.flights && s'.flights[x] == s.flights[x]
    ensures var fails, looks := Fails(s, ByFlight(g, op)), LooksUp(s, ByFlight(g, op));
            && (fails.Some? ==> fails == Some(s.flights[g].obj) && !PastBump(s, InFlight(g)))
            && (looks.Some? ==> looks == Some(s.flights[g].obj) && !PastLookup(s, InFlight(g)))
            && (g in s'.flights ==>
                  && (PastBump(s', InFlight(g)) <==> PastBump(s, InFlight(g)) || fails.Some?)
                  && (PastLookup(s', InFlight(g)) <==> PastLookup(s, InFlight(g)) || looks.Some?))
  {
  }

  lemma HeldFrom(cfg: Config, s: State, step: Step, s': State, k: string, p: Place) returns (from: Place)
    requires Placed(cfg, s) && Next(cfg, s, step, s') && At(s', k, p) && Holder(p)
    ensures PoppedNow(s, step, s', k, p) || StageFollows(s, step, s', k, from, p)
  {
    from := p;
    match step
    case ByUser(op) => UserHolds(cfg, s, op, s', k, p);
    case ByController(op) => ControllerHolds(cfg, s, op, s', k, p);
    case ByLoop(op) => from := LoopHoldsOn(cfg, s, op, s', k, p);
    case ByFlight(g, op) => FlightHoldsOn(cfg, s, g, op, s', k, p);
  }

  lemma HandIsFaithful(cfg: Config, s: State)
    requires Resolved(s) && Faithful(cfg, s)
    ensures HandObj(s).Some? ==> Key(s.store[HandObj(s).value].unit) == HandName(s)
  {
    if HandObj(s).Some? { assert OkInfo(cfg, s.used, s.store[HandObj(s).value]); }
  }

  /** o was looked up at step m. */
  ghost predicate LookedUpAt(states: seq<State>, steps: seq<Step>, m: nat, o: ObjId, u: QueueUnit)
    requires m < |steps| && |states| == |steps| + 1
  {
    LooksUp(states[m], steps[m]) == Some(o) && Key(u) in states[m].api && states[m].api[Key(u)] == u
  }

  ghost predicate LookedUpBetween(states: seq<State>, steps: seq<Step>, i: nat, n: nat, o: ObjId, u: QueueUnit)
    requires n <= |steps| && |states| == |steps| + 1
  {
    exists m :: i < m < n && LookedUpAt(states, steps, m, o, u)
  }

  /** What the info of o has gone through since it was popped, in state was, when it is held at p in state s. */
  ghost predicate SincePop(was: State, s: State, o: ObjId, p: Place)
  {
    && o in was.store && o in s.store && was.now <= s.now
    && s.store[o].attempts == was.store[o].attempts + (if PastBump(s, p) then 1 else 0)
    && (PastBump(s, p) ==> was.now <= s.store[o].timestamp <= s.now)
    && (!PastBump(s, p) ==> s.store[o].timestamp == was.store[o].timestamp)
    && (PastLookup(s, p) ==> PastBump(s, p))
  }

  /** Unit k, held at p after n steps as o, was popped at step i, and looked up since if it is past that. */
  ghost predicate OnTrip(states: seq<State>, steps: seq<Step>, i: nat, n: nat, k: string, p: Place, o: ObjId)
    requires n < |states| == |steps| + 1
  {
    && i < n && steps[i] == ByLoop(PopUnit(k)) && ObjAt(states[i + 1], k, Hand) == Some(o)
    && SincePop(states[i], states[n], o, p)
    && (PastLookup(states[n], p) ==> LookedUpBetween(states, steps, i, n, o, states[n].store[o].unit))
  }

  lemma StepSincePop(was: State, s: State, step: Step, s': State, k: string, from: Place, p: Place, o: ObjId)
    requires SincePop(was, s, o, from) && StageFollows(s, step, s', k, from, p) && ObjAt(s, k, from) == Some(o)
    requires InfosFollow(s, step, s') && s.now <= s'.now
    requires LooksUp(s, step) == Some(o) ==> PastBump(s, from)
    ensures SincePop(was, s', o, p)
  {
    assert InfoFollows(s, step, s', o);
  }

  /** ErrorFunc looks a unit up only after it has bumped it. */
  lemma LookupIsAfterBump(cfg: Config, s: State, step: Step, s': State, k: string, p: Place)
    requires Placed(cfg, s) && Next(cfg, s, step, s') && At(s, k, p) && LooksUp(s, step) == ObjAt(s, k, p)
    ensures PastBump(s, p)
  {
    HolderOf(s, k, p);
  }

  lemma ClockGoesOn(cfg: Config, s: State, step: Step, s': State)
    requires Next(cfg, s, step, s')
    ensures s.now <= s'.now
  {
    match step
    case ByUser(op) => UserClock(cfg, s, op, s');
    case ByController(op) => ControllerClock(cfg, s, op, s');
    case ByLoop(op) => LoopFrame(cfg, s, op, s');
    case ByFlight(g, op) => FlightClock(s, g, op, s');
  }

  lemma UserClock(cfg: Config, s: State, op: UserOp, s': State)
    requires UserStep(cfg, s, op, s')
    ensures s.now <= s'.now
  {
  }

  lemma ControllerClock(cfg: Config, s: State, op: ControllerOp, s': State)
    requires ControllerStep(cfg, s, op, s')
    ensures s'.now == s.now
  {
    if op.DeliverQueued? {
      DeliverFrame(s, op.id, s');
    } else if op.DeliverDequeued? {
      HandledFrame(cfg, s, s');
    }
  }

  ghost predicate SomeTrip(states: seq<State>, steps: seq<Step>, n: nat, k: string, p: Place, o: ObjId)
    requires n < |states| == |steps| + 1
  {
    exists i: nat :: OnTrip(states, steps, i, n, k, p, o)
  }

  /** Everything held after n steps has been popped since. */
  ghost predicate AllOnTrips(states: seq<State>, steps: seq<Step>, n: nat)
    requires n < |states| == |steps| + 1
  {
    forall k, p | Holder(p) && At(states[n], k, p) :: SomeTrip(states, steps, n, k, p, ObjAt(states[n], k, p).value)
  }

  lemma TripsGoOn(cfg: Config, states: seq<State>, steps: seq<Step>, n: nat)
    requires ConfigOk(cfg) && IsRun(cfg, states, steps) && n < |steps| && AllOnTrips(states, steps, n)
    ensures AllOnTrips(states, steps, n + 1)
  {
    var s', n' := states[n + 1], n + 1;
    forall k, p | Holder(p) && At(s', k, p) ensures SomeTrip(states, steps, n', k, p, ObjAt(s', k, p).value) {
      OneTripGoesOn(cfg, states, steps, n, k, p);
    }
  }

  lemma OneTripGoesOn(cfg: Config, states: seq<State>, steps: seq<Step>, n: nat, k: string, p: Place)
    requires ConfigOk(cfg) && IsRun(cfg, states, steps) && n < |steps| && AllOnTrips(states, steps, n)
    requires Holder(p) && At(states[n + 1], k, p)
    ensures SomeTrip(states, steps, n + 1, k, p, ObjAt(states[n + 1], k, p).value)
  {
    var o := ObjAt(states[n + 1], k, p).value;
    var popped, from := TripStep(cfg, states, steps, n, k, p);
    if popped {
      assert OnTrip(states, steps, n, n + 1, k, p, o);
    } else {
      assert SomeTrip(states, steps, n, k, from, o);
      var i: nat :| OnTrip(states, steps, i, n, k, from, o);
      TripGoesOn(cfg, states, steps, i, n, k, from, p, o);
    }
  }

  lemma TripOf(cfg: Config, states: seq<State>, steps: seq<Step>, n: nat, k: string, p: Place) returns (i: nat)
    requires ConfigOk(cfg) && IsRun(cfg, states, steps) && n < |states| && Holder(p) && At(states[n], k, p)
    ensures OnTrip(states, steps, i, n, k, p, ObjAt(states[n], k, p).value)
  {
    NothingAtFirst(cfg, states[0]);
    for m := 0 to n
      invariant AllOnTrips(states, steps, m)
    {
      TripsGoOn(cfg, states, steps, m);
    }
    assert SomeTrip(states, steps, n, k, p, ObjAt(states[n], k, p).value);
    i :| OnTrip(states, steps, i, n, k, p, ObjAt(states[n], k, p).value);
  }

  /** The step before: the pop, or one at which the unit was held already. */
  lemma TripStep(cfg: Config, states: seq<State>, steps: seq<Step>, n: nat, k: string, p: Place)
    returns (popped: bool, from: Place)
    requires ConfigOk(cfg) && IsRun(cfg, states, steps) && n < |steps| && Holder(p) && At(states[n + 1], k, p)
    ensures popped ==> OnTrip(states, steps, n, n + 1, k, p, ObjAt(states[n + 1], k, p).value)
    ensures !popped ==> StageFollows(states[n], steps[n], states[n + 1], k, from, p)
  {
    FollowsAt(cfg, states, steps, n);
    from := HeldFrom(cfg, states[n], steps[n], states[n + 1], k, p);
    popped := PoppedNow(states[n], steps[n], states[n + 1], k, p);
    if popped {
      PopIsFresh(cfg, states[n], states[n + 1], k, p, ObjAt(states[n + 1], k, p).value);
    }
  }

  lemma NothingAtFirst(cfg: Config, s: State)
    requires Init(cfg, s)
    ensures forall k, p :: !At(s, k, p)
  {
  }

  lemma PopIsFresh(cfg: Config, s: State, s': State, k: string, p: Place, o: ObjId)
    requires Placed(cfg, s) && LoopStep(cfg, s, PopUnit(k), s') && PoppedNow(s, ByLoop(PopUnit(k)), s', k, p)
    requires ObjAt(s', k, p) == Some(o)
    ensures SincePop(s, s', o, p) && !PastLookup(s', p)
  {
    LoopFrame(cfg, s, PopUnit(k), s');
    assert s'.store == s.store;
    assert o in s.store;
  }

  lemma TripGoesOn(cfg: Config, states: seq<State>, steps: seq<Step>, i: nat, n: nat, k: string, from: Place, p: Place,
                   o: ObjId)
    requires ConfigOk(cfg) && IsRun(cfg, states, steps) && n < |steps| && OnTrip(states, steps, i, n, k, from, o)
    requires StageFollows(states[n], steps[n], states[n + 1], k, from, p) && ObjAt(states[n], k, from) == Some(o)
    ensures OnTrip(states, steps, i, n + 1, k, p, o)
  {
    FollowsAt(cfg, states, steps, n);
    SinceGoesOn(cfg, states[i], states[n], steps[n], states[n + 1], k, from, p, o);
    LookupGoesOn(cfg, states, steps, i, n, k, from, p, o);
  }

  lemma SinceGoesOn(cfg: Config, was: State, s: State, step: Step, s': State, k: string, from: Place, p: Place,
                    o: ObjId)
    requires Placed(cfg, s) && Next(cfg, s, step, s') && InfosFollow(s, step, s') && SincePop(was, s, o, from)
    requires StageFollows(s, step, s', k, from, p) && ObjAt(s, k, from) == Some(o)
    ensures SincePop(was, s', o, p)
  {
    if LooksUp(s, step) == Some(o) { LookupIsAfterBump(cfg, s, step, s', k, from); }
    ClockGoesOn(cfg, s, step, s');
    StepSincePop(was, s, step, s', k, from, p, o);
  }

  lemma LookupGoesOn(cfg: Config, states: seq<State>, steps: seq<Step>, i: nat, n: nat, k: string, from: Place,
                     p: Place, o: ObjId)
    requires |states| == |steps| + 1 && n < |steps| && OnTrip(states, steps, i, n, k, from, o)
    requires Faithful(cfg, states[n]) && InfosFollow(states[n], steps[n], states[n + 1])
    requires StageFollows(states[n], steps[n], states[n + 1], k, from, p) && ObjAt(states[n], k, from) == Some(o)
    ensures o in states[n + 1].store
    ensures PastLookup(states[n + 1], p) ==> LookedUpBetween(states, steps, i, n + 1, o, states[n + 1].store[o].unit)
  {
    var s, step, s' := states[n], steps[n], states[n + 1];
    assert InfoFollows(s, step, s', o);
    if PastLookup(s', p) {
      if LooksUp(s, step) == Some(o) {
        assert Key(s.store[o].unit) in s.api && Key(s.api[Key(s.store[o].unit)]) == Key(s.store[o].unit);
        assert LookedUpAt(states, steps, n, o, s'.store[o].unit);
      } else {
        var m :| i < m < n && LookedUpAt(states, steps, m, o, s.store[o].unit);
        assert LookedUpAt(states, steps, m, o, s'.store[o].unit);
      }
    }
  }

  // ---------- the return ----------

  /** A unit that comes into a backoff heap comes from a holder past ErrorFunc's lookup, with the info it has there. */
  lemma ReturnsFromHolder(cfg: Config, s: State, step: Step, s': State, k: string, q: string) returns (p: Place)
    requires Placed(cfg, s) && Next(cfg, s, step, s') && At(s', k, Backing(q)) && !At(s, k, Backing(q))
    ensures Holder(p) && At(s, k, p) && PastLookup(s, p) && ObjAt(s', k, Backing(q)) == ObjAt(s, k, p)
    ensures s'.store == s.store
  {
    p := if step.ByFlight? then InFlight(step.g) else Hand;
    match step
    case ByUser(op) => UserReturnsNone(cfg, s, op, s', k, q);
    case ByController(op) => ControllerReturnsNone(cfg, s, op, s', k, q);
    case ByLoop(op) => LoopReturns(cfg, s, op, s', k, q);
    case ByFlight(g, op) => FlightReturns(s, g, op, s', k, q);
  }

  lemma LoopReturns(cfg: Config, s: State, op: LoopOp, s': State, k: string, q: string)
    requires Placed(cfg, s) && LoopStep(cfg, s, op, s') && At(s', k, Backing(q)) && !At(s, k, Backing(q))
    ensures At(s, k, Hand) && PastLookup(s, Hand)
    ensures ObjAt(s', k, Backing(q)) == ObjAt(s, k, Hand) && s'.store == s.store
  {
    HandIsFaithful(cfg, s);
    LoopEffect(cfg, s, op, s');
    assert ObjAt(s', k, Backing(q)) == After(s, LoopEffectOf(s, op), k, Backing(q));
  }

  lemma FlightReturns(s: State, g: nat, op: FlightOp, s': State, k: string, q: string)
    requires Resolved(s) && Single(s) && FlightStep(s, g, op, s') && At(s', k, Backing(q)) && !At(s, k, Backing(q))
    ensures At(s, k, InFlight(g)) && PastLookup(s, InFlight(g))
    ensures ObjAt(s', k, Backing(q)) == ObjAt(s, k, InFlight(g)) && s'.store == s.store
  {
    FlightEffect(s, g, op, s');
    assert ObjAt(s', k, Backing(q)) == After(s, FlightEffectOf(s, g, op), k, Backing(q));
  }

  lemma UserReturnsNone(cfg: Config, s: State, op: UserOp, s': State, k: string, q: string)
    requires Resolved(s) && UserStep(cfg, s, op, s') && At(s', k, Backing(q))
    ensures At(s, k, Backing(q))
  {
    KeptEffect(s, s');
    assert ObjAt(s', k, Backing(q)) == After(s, Stay, k, Backing(q));
  }

  lemma ControllerReturnsNone(cfg: Config, s: State, op: ControllerOp, s': State, k: string, q: string)
    requires Placed(cfg, s) && ControllerStep(cfg, s, op, s') && At(s', k, Backing(q))
    ensures At(s, k, Backing(q))
  {
    if op.DeliverQueued? {
      DeliverEffect(s, op.id, s');
      assert ObjAt(s', k, Backing(q)) == After(s, ControllerEffectOf(s, op), k, Backing(q));
    } else if op.DeliverDequeued? {
      HandledFrame(cfg, s, s');
      KeptEffect(s, s');
      assert ObjAt(s', k, Backing(q)) == After(s, Stay, k, Backing(q));
    } else {
      FlushEffect(s, op.q, op.moved, s');
      assert ObjAt(s', k, Backing(q)) == After(s, Promote(op.q, op.moved), k, Backing(q));
    }
  }

  /**
   Whenever a unit comes back into a backoff heap, by the loop or by a goroutine, its info has one
   attempt more than when it was popped, was stamped since, and carries the unit of a lookup since.
   */
  lemma ReturnIsOneFailure(cfg: Config, states: seq<State>, steps: seq<Step>, n: nat, k: string, q: string)
    returns (i: nat, o: ObjId)
    requires ConfigOk(cfg) && IsRun(cfg, states, steps) && n < |steps|
    requires At(states[n + 1], k, Backing(q)) && !At(states[n], k, Backing(q))
    ensures i < n && steps[i] == ByLoop(PopUnit(k))
    ensures ObjAt(states[i + 1], k, Hand) == Some(o) && ObjAt(states[n + 1], k, Backing(q)) == Some(o)
    ensures o in states[i].store && o in states[n + 1].store
    ensures states[n + 1].store[o].attempts == states[i].store[o].attempts + 1
    ensures states[i].now <= states[n + 1].store[o].timestamp <= states[n].now
    ensures LookedUpBetween(states, steps, i, n, o, states[n + 1].store[o].unit)
  {
    FollowsAt(cfg, states, steps, n);
    var p := ReturnsFromHolder(cfg, states[n], steps[n], states[n + 1], k, q);
    i := TripOf(cfg, states, steps, n, k, p);
    o := ObjAt(states[n], k, p).value;
  }
}
