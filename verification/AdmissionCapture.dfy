/**
 The loop variable a goroutine reads when it returns its unit: what it can hold by then is exactly
 what the loop has come to, in the same pass, from the goroutine's own pop on.
 */
module AdmissionCapture {
  import opened Orders
  import opened Admission
  import opened AdmissionPlaces
  import opened AdmissionTokens
  import opened AdmissionTheorems

  /** The step brings the loop to queue q in the given pass. */
  predicate ComesTo(s: State, step: Step, pass: nat, q: string)
  {
    && step.ByLoop? && (step.loop.SkipQueue? || step.loop.PopUnit?)
    && s.sched.Visiting? && |s.sched.rest| > 0 && s.sched.pass == pass && s.sched.rest[0] == q
  }

  /** The loop has still to come to q in that pass. */
  predicate Ahead(s: State, pass: nat, q: string)
  {
    !s.sched.Idle? && s.sched.pass == pass && q in s.sched.rest
  }

  /** The step pops object o in the given pass. */
  predicate Pops(s: State, step: Step, s': State, o: ObjId, pass: nat)
  {
    step.ByLoop? && step.loop.PopUnit? && s.sched.Visiting? && s.sched.pass == pass && HandObj(s') == Some(o)
  }

  /** From step i on, and before step n, the loop has come to q in that pass. */
  ghost predicate BeenTo(states: seq<State>, steps: seq<Step>, i: nat, n: nat, pass: nat, q: string)
    requires n <= |steps| && |states| == |steps| + 1
  {
    exists m :: i <= m < n && ComesTo(states[m], steps[m], pass, q)
  }

  lemma BeenMore(states: seq<State>, steps: seq<Step>, i: nat, n: nat, pass: nat, q: string)
    requires n < |steps| && |states| == |steps| + 1 && i <= n
    ensures BeenTo(states, steps, i, n + 1, pass, q) <==>
            BeenTo(states, steps, i, n, pass, q) || ComesTo(states[n], steps[n], pass, q)
  {
    if BeenTo(states, steps, i, n, pass, q) {
      var m :| i <= m < n && ComesTo(states[m], steps[m], pass, q);
      assert i <= m < n + 1 && ComesTo(states[m], steps[m], pass, q);
    }
    if ComesTo(states[n], steps[n], pass, q) { assert i <= n < n + 1; }
  }

  // ---------- one step ----------

  predicate NoRepeats(names: seq<string>)
  {
    forall i, j | 0 <= i < j < |names| :: names[i] != names[j]
  }

  /** A pass comes to no queue twice, and no two passes have the same number. */
  ghost predicate Ordered(s: State)
  {
    && (!s.sched.Idle? ==> NoRepeats(s.sched.rest) && s.sched.pass < s.passes)
    && (HandObj(s).Some? ==> s.sched.q !in s.sched.rest)
    && forall g | g in s.flights :: s.flights[g].pass < s.passes
  }

  /** The step leaves the loop's place in its pass alone. */
  predicate SchedKept(s: State, s': State)
  {
    && s'.passes == s.passes && (s'.sched.Idle? <==> s.sched.Idle?)
    && (!s.sched.Idle? ==> s'.sched.rest == s.sched.rest && s'.sched.pass == s.sched.pass)
    && (HandObj(s').Some? ==> HandObj(s') == HandObj(s) && s'.sched.q == s.sched.q)
  }

  /** What the loop's steps do to its place in the pass, and to the goroutines. */
  lemma LoopPlace(cfg: Config, s: State, op: LoopOp, s': State)
    requires LoopStep(cfg, s, op, s')
    ensures op.StartPass? ==>
              && s.sched.Idle? && s'.sched == Visiting(op.order, s.passes) && s'.passes == s.passes + 1
              && NoRepeats(op.order)
    ensures op.EndPass? ==> s.sched.Visiting? && s.sched.rest == [] && s'.sched.Idle? && s'.passes == s.passes
    ensures op.SkipQueue? || op.PopUnit? ==>
              && s.sched.Visiting? && |s.sched.rest| > 0 && s'.passes == s.passes && !s'.sched.Idle?
              && s'.sched.pass == s.sched.pass && s'.sched.rest == s.sched.rest[1..]
              && (HandObj(s').Some? <==> op.PopUnit?) && (op.PopUnit? ==> s'.sched.q == s.sched.rest[0])
    ensures !op.StartPass? && !op.EndPass? && !op.SkipQueue? && !op.PopUnit? ==> SchedKept(s, s')
  {
  }

  lemma LoopFlights(cfg: Config, s: State, op: LoopOp, s': State, g: nat)
    requires LoopStep(cfg, s, op, s') && g in s'.flights
    ensures if g in s.flights then s'.flights[g] == s.flights[g]
            else op == ReserveUnit(g) && s.sched.Filtering? && s'.flights[g] == Launch(s)
  {
  }

  lemma FlightGoesOn(s: State, h: nat, op: FlightOp, s': State, g: nat)
    requires FlightStep(s, h, op, s') && g in s'.flights
    ensures s'.sched == s.sched && s'.passes == s.passes && g in s.flights
    ensures var f, f' := s.flights[g], s'.flights[g]; f'.obj == f.obj && f'.ahead == f.ahead && f'.pass == f.pass
  {
  }

  lemma FlightSchedKept(s: State, h: nat, op: FlightOp, s': State)
    requires FlightStep(s, h, op, s')
    ensures s'.sched == s.sched && s'.passes == s.passes
  {
  }

  lemma OthersKeepSched(cfg: Config, s: State, step: Step, s': State)
    requires Next(cfg, s, step, s') && (step.ByUser? || step.ByController?)
    ensures s'.sched == s.sched && s'.passes == s.passes && s'.flights == s.flights
  {
    match step
    case ByUser(op) => UserKeepsSched(cfg, s, op, s');
    case ByController(op) => ControllerKeepsSched(cfg, s, op, s');
  }

  lemma UserKeepsSched(cfg: Config, s: State, op: UserOp, s': State)
    requires UserStep(cfg, s, op, s')
    ensures s'.sched == s.sched && s'.passes == s.passes && s'.flights == s.flights
  {
  }

  lemma ControllerKeepsSched(cfg: Config, s: State, op: ControllerOp, s': State)
    requires ControllerStep(cfg, s, op, s')
    ensures s'.sched == s.sched && s'.passes == s.passes && s'.flights == s.flights
  {
    if op.DeliverQueued? {
      DeliverFrame(s, op.id, s');
    } else if op.DeliverDequeued? {
      HandledFrame(cfg, s, s');
    }
  }

  /** Goroutine g goes on, or the step starts it. */
  ghost predicate GoesOn(s: State, step: Step, s': State, g: nat)
    requires g in s'.flights
  {
    var f' := s'.flights[g];
    if g in s.flights
    then f'.obj == s.flights[g].obj && f'.ahead == s.flights[g].ahead && f'.pass == s.flights[g].pass
    else step == ByLoop(ReserveUnit(g)) && s.sched.Filtering? && f' == Launch(s)
  }

  lemma StepGoesOn(cfg: Config, s: State, step: Step, s': State, g: nat)
    requires Next(cfg, s, step, s') && g in s'.flights
    ensures GoesOn(s, step, s', g)
  {
    match step
    case ByLoop(op) => LoopFlights(cfg, s, op, s', g);
    case ByFlight(h, op) => FlightGoesOn(s, h, op, s', g);
    case _ => OthersKeepSched(cfg, s, step, s');
  }

  /** Where the loop is in its pass after a step. */
  lemma StepPlace(cfg: Config, s: State, step: Step, s': State)
    requires Next(cfg, s, step, s')
    requires step.ByLoop? ==>
               !step.loop.StartPass? && !step.loop.EndPass? && !step.loop.SkipQueue? && !step.loop.PopUnit?
    ensures SchedKept(s, s')
  {
    match step
    case ByLoop(op) => LoopPlace(cfg, s, op, s');
    case ByFlight(h, op) => FlightSchedKept(s, h, op, s');
    case _ => OthersKeepSched(cfg, s, step, s');
  }

  lemma StepKeepsOrdered(cfg: Config, s: State, step: Step, s': State)
    requires Next(cfg, s, step, s') && Ordered(s)
    ensures Ordered(s')
  {
    forall g | g in s'.flights ensures s'.flights[g].pass < s.passes {
      StepGoesOn(cfg, s, step, s', g);
    }
    if step.ByLoop? { LoopPlace(cfg, s, step.loop, s'); } else { StepPlace(cfg, s, step, s'); }
  }

  /** A queue is ahead of the loop until the loop comes to it. */
  lemma AheadFollows(cfg: Config, s: State, step: Step, s': State, pass: nat, q: string)
    requires Next(cfg, s, step, s') && Ordered(s) && pass < s.passes
    ensures Ahead(s', pass, q) <==> Ahead(s, pass, q) && !ComesTo(s, step, pass, q)
    ensures ComesTo(s, step, pass, q) ==> Ahead(s, pass, q)
  {
    if step.ByLoop? { LoopPlace(cfg, s, step.loop, s'); } else { StepPlace(cfg, s, step, s'); }
  }

  // ---------- over a run ----------

  /** Step i popped what is in hand after n steps, and the loop has come to no other queue since. */
  ghost predicate HandTrip(states: seq<State>, steps: seq<Step>, i: nat, n: nat)
    requires n <= |steps| && |states| == |steps| + 1 && HandObj(states[n]).Some?
  {
    var sched := states[n].sched;
    && i < n && Pops(states[i], steps[i], states[i + 1], HandObj(states[n]).value, sched.pass)
    && forall q :: BeenTo(states, steps, i, n, sched.pass, q) <==> q == sched.q
  }

  /** Queue q is among those of goroutine f exactly if the loop has come to it since step i or is still to. */
  ghost predicate Followed(states: seq<State>, steps: seq<Step>, i: nat, n: nat, f: Flight, q: string)
    requires n <= |steps| && |states| == |steps| + 1
  {
    && (q in f.ahead <==> BeenTo(states, steps, i, n, f.pass, q) || Ahead(states[n], f.pass, q))
    && !(BeenTo(states, steps, i, n, f.pass, q) && Ahead(states[n], f.pass, q))
  }

  /** Step i popped the unit of goroutine g. */
  ghost predicate FlightTrip(states: seq<State>, steps: seq<Step>, i: nat, n: nat, g: nat)
    requires n <= |steps| && |states| == |steps| + 1 && g in states[n].flights
  {
    var f := states[n].flights[g];
    && i < n && Pops(states[i], steps[i], states[i + 1], f.obj, f.pass)
    && forall q :: Followed(states, steps, i, n, f, q)
  }

  ghost predicate SomeHandTrip(states: seq<State>, steps: seq<Step>, n: nat)
    requires n <= |steps| && |states| == |steps| + 1 && HandObj(states[n]).Some?
  {
    exists i: nat :: HandTrip(states, steps, i, n)
  }

  ghost predicate SomeFlightTrip(states: seq<State>, steps: seq<Step>, n: nat, g: nat)
    requires n <= |steps| && |states| == |steps| + 1 && g in states[n].flights
  {
    exists i: nat :: FlightTrip(states, steps, i, n, g)
  }

  ghost predicate AllTrips(states: seq<State>, steps: seq<Step>, n: nat)
    requires n <= |steps| && |states| == |steps| + 1
  {
    && Ordered(states[n])
    && (HandObj(states[n]).Some? ==> SomeHandTrip(states, steps, n))
    && forall g | g in states[n].flights :: SomeFlightTrip(states, steps, n, g)
  }

  lemma PopIsTrip(cfg: Config, states: seq<State>, steps: seq<Step>, n: nat)
    requires n < |steps| && |states| == |steps| + 1 && steps[n].ByLoop? && steps[n].loop.PopUnit?
    requires LoopStep(cfg, states[n], steps[n].loop, states[n + 1])
    ensures HandObj(states[n + 1]).Some? && HandTrip(states, steps, n, n + 1)
  {
    var s' := states[n + 1];
    LoopPlace(cfg, states[n], steps[n].loop, s');
    assert s'.sched.q == states[n].sched.rest[0];
    var n' := n + 1;
    forall q ensures BeenTo(states, steps, n, n', s'.sched.pass, q) <==> q == s'.sched.q {
      BeenMore(states, steps, n, n, s'.sched.pass, q);
    }
  }

  lemma HandTripGoesOn(states: seq<State>, steps: seq<Step>, i: nat, n: nat)
    requires n < |steps| && |states| == |steps| + 1 && HandObj(states[n]).Some? && HandTrip(states, steps, i, n)
    requires HandObj(states[n + 1]).Some? && SchedKept(states[n], states[n + 1])
    ensures HandTrip(states, steps, i, n + 1)
  {
    var sched, n' := states[n + 1].sched, n + 1;
    assert sched.pass == states[n].sched.pass && sched.q == states[n].sched.q;
    forall q ensures BeenTo(states, steps, i, n', sched.pass, q) <==> q == sched.q {
      BeenMore(states, steps, i, n, sched.pass, q);
    }
  }

  lemma HandGoesOn(cfg: Config, states: seq<State>, steps: seq<Step>, n: nat)
    requires n < |steps| && |states| == |steps| + 1 && Next(cfg, states[n], steps[n], states[n + 1])
    requires AllTrips(states, steps, n) && HandObj(states[n + 1]).Some?
    ensures SomeHandTrip(states, steps, n + 1)
  {
    var s, step, s' := states[n], steps[n], states[n + 1];
    if step.ByLoop? { LoopPlace(cfg, s, step.loop, s'); } else { StepPlace(cfg, s, step, s'); }
    if step.ByLoop? && step.loop.PopUnit? {
      PopIsTrip(cfg, states, steps, n);
    } else {
      var i: nat :| HandTrip(states, steps, i, n);
      HandTripGoesOn(states, steps, i, n);
    }
  }

  lemma FollowedGoesOn(cfg: Config, states: seq<State>, steps: seq<Step>, i: nat, n: nat, f: Flight, f': Flight,
                       q: string)
    requires i <= n < |steps| && |states| == |steps| + 1 && Next(cfg, states[n], steps[n], states[n + 1])
    requires Ordered(states[n]) && f.pass < states[n].passes && Followed(states, steps, i, n, f, q)
    requires f'.ahead == f.ahead && f'.pass == f.pass
    ensures Followed(states, steps, i, n + 1, f', q)
  {
    BeenMore(states, steps, i, n, f.pass, q);
    AheadFollows(cfg, states[n], steps[n], states[n + 1], f.pass, q);
  }

  /** The goroutine started for the unit in hand follows its pop. */
  lemma LaunchFollows(states: seq<State>, steps: seq<Step>, i: nat, n: nat, q: string)
    requires n < |states| == |steps| + 1 && states[n].sched.Filtering? && HandTrip(states, steps, i, n)
    requires Ordered(states[n])
    ensures Followed(states, steps, i, n, Launch(states[n]), q)
  {
  }

  lemma OldTripGoesOn(cfg: Config, states: seq<State>, steps: seq<Step>, i: nat, n: nat, g: nat)
    requires n < |steps| && |states| == |steps| + 1 && Next(cfg, states[n], steps[n], states[n + 1])
    requires Ordered(states[n]) && g in states[n].flights && FlightTrip(states, steps, i, n, g)
    requires g in states[n + 1].flights && GoesOn(states[n], steps[n], states[n + 1], g)
    ensures FlightTrip(states, steps, i, n + 1, g)
  {
    var f, f', n' := states[n].flights[g], states[n + 1].flights[g], n + 1;
    forall q ensures Followed(states, steps, i, n', f', q) {
      assert Followed(states, steps, i, n, f, q);
      FollowedGoesOn(cfg, states, steps, i, n, f, f', q);
    }
  }

  lemma TripGoesOn(cfg: Config, states: seq<State>, steps: seq<Step>, n: nat, g: nat)
    requires n < |steps| && |states| == |steps| + 1 && Next(cfg, states[n], steps[n], states[n + 1])
    requires AllTrips(states, steps, n) && g in states[n + 1].flights && g in states[n].flights
    ensures SomeFlightTrip(states, steps, n + 1, g)
  {
    assert SomeFlightTrip(states, steps, n, g);
    var i: nat :| FlightTrip(states, steps, i, n, g);
    StepGoesOn(cfg, states[n], steps[n], states[n + 1], g);
    OldTripGoesOn(cfg, states, steps, i, n, g);
  }

  lemma NewTripGoesOn(cfg: Config, states: seq<State>, steps: seq<Step>, n: nat, g: nat)
    requires n < |steps| && |states| == |steps| + 1 && Next(cfg, states[n], steps[n], states[n + 1])
    requires AllTrips(states, steps, n) && g in states[n + 1].flights && g !in states[n].flights
    ensures SomeFlightTrip(states, steps, n + 1, g)
  {
    StepGoesOn(cfg, states[n], steps[n], states[n + 1], g);
    var i: nat :| HandTrip(states, steps, i, n);
    var f, n' := Launch(states[n]), n + 1;
    forall q ensures Followed(states, steps, i, n', f, q) {
      LaunchFollows(states, steps, i, n, q);
      FollowedGoesOn(cfg, states, steps, i, n, f, f, q);
    }
    assert FlightTrip(states, steps, i, n', g);
  }

  lemma TripsGoOn(cfg: Config, states: seq<State>, steps: seq<Step>, n: nat)
    requires n < |steps| && |states| == |steps| + 1 && Next(cfg, states[n], steps[n], states[n + 1])
    requires AllTrips(states, steps, n)
    ensures AllTrips(states, steps, n + 1)
  {
    var n' := n + 1;
    StepKeepsOrdered(cfg, states[n], steps[n], states[n']);
    if HandObj(states[n']).Some? { HandGoesOn(cfg, states, steps, n); }
    forall g | g in states[n'].flights ensures SomeFlightTrip(states, steps, n', g) {
      if g in states[n].flights {
        TripGoesOn(cfg, states, steps, n, g);
      } else {
        NewTripGoesOn(cfg, states, steps, n, g);
      }
    }
  }

  lemma FlightTripOf(cfg: Config, states: seq<State>, steps: seq<Step>, n: nat, g: nat) returns (i: nat)
    requires IsRun(cfg, states, steps) && n < |states| && g in states[n].flights
    ensures FlightTrip(states, steps, i, n, g)
  {
    for m := 0 to n
      invariant AllTrips(states, steps, m)
    {
      TripsGoOn(cfg, states, steps, m);
    }
    assert SomeFlightTrip(states, steps, n, g);
    i :| FlightTrip(states, steps, i, n, g);
  }

  /** Goroutine g can take the step. */
  ghost predicate FlightMay(s: State, g: nat, op: FlightOp)
  {
    exists s' :: FlightStep(s, g, op, s')
  }

  lemma MayReturnIff(s: State, g: nat, q: string)
    requires Resolved(s) && g in s.flights && s.flights[g].stage == Erring(Reenter)
    ensures FlightMay(s, g, FlightReenter(q)) <==> q in s.flights[g].ahead && !Ahead(s, s.flights[g].pass, q)
  {
    assert At(s, FlightName(s, g), InFlight(g));
    var s' := Reentered(s, s.flights[g].obj, q).(flights := s.flights - {g});
    assert FlightStep(s, g, FlightReenter(q), s') <==> Captured(s, g, q);
  }

  /**
   In every run, a goroutine that has looked its unit up can return it to exactly the queues the loop
   has come to from the pop of that unit on, in the same pass.
   */
  lemma ReturnsWhereLoopHasBeen(cfg: Config, states: seq<State>, steps: seq<Step>, n: nat, g: nat) returns (i: nat)
    requires ConfigOk(cfg) && IsRun(cfg, states, steps) && n < |states|
    requires g in states[n].flights && states[n].flights[g].stage == Erring(Reenter)
    ensures i < n && Pops(states[i], steps[i], states[i + 1], states[n].flights[g].obj, states[n].flights[g].pass)
    ensures forall q :: FlightMay(states[n], g, FlightReenter(q)) <==>
                        BeenTo(states, steps, i, n, states[n].flights[g].pass, q)
  {
    RunKeepsInv(cfg, states, steps, n);
    i := FlightTripOf(cfg, states, steps, n, g);
    var f := states[n].flights[g];
    forall q ensures FlightMay(states[n], g, FlightReenter(q)) <==> BeenTo(states, steps, i, n, f.pass, q) {
      MayReturnIff(states[n], g, q);
      assert Followed(states, steps, i, n, f, q);
    }
  }
}
