// The protocol by which concurrent lookups of one key share a single run
// (internal/cache/flight.go), as a transition system over its atomic steps: every section
// under the group's lock, every write of the run's goroutine and every choice of a caller's
// select is one step, and any interleaving of them is a run.
module FlightProtocol {
  import opened Collections

  type Key = string

  // What fn produced. A panic is a failure like any other.
  datatype Reply<+V> = Value(value: V) | Failed(error: string)

  // How far a run's goroutine has come: fn is being called, its reply is written, the key
  // is freed, the context is released, done is closed.
  datatype Progress = Calling | Returned | Freed | Released | Closed

  datatype Flight<+V> = Flight(key: Key, progress: Progress, cancelled: bool, waiters: int, reply: Option<Reply<V>>)
  {
    predicate Running() { progress.Calling? || progress.Returned? }
  }

  datatype Status<+V> = Waiting | Leaving | Left | Answered(reply: Reply<V>)

  // One call of do. A refused caller came with a context that had already ended.
  datatype Caller<+V> = Refused(key: Key) | Attached(key: Key, flight: nat, status: Status<V>)

  datatype State<+V> = State(
    calls: map<Key, nat>,       // the registered flight of a key, by position in flights
    flights: seq<Flight<V>>,    // every flight ever started
    callers: seq<Caller<V>>,    // every call of do
    leaders: nat,               // joined(true) callbacks
    coalesced: nat)             // joined(false) callbacks

  datatype Step<+V> =
    | Refuse(key: Key)
    | Join(key: Key)
    | PickCtx(caller: nat)
    | Leave(caller: nat)
    | PickDone(caller: nat)
    | Return(flight: nat, reply: Reply<V>)
    | Free(flight: nat)
    | Release(flight: nat)
    | CloseDone(flight: nat)

  function Initial<V>(): State<V> { State(map[], [], [], 0, 0) }

  // ---------------------------------------------------------------- transitions

  predicate CallerIs<V(==)>(s: State<V>, c: nat, status: Status<V>)
  {
    c < |s.callers| && s.callers[c].Attached? && s.callers[c].status == status
      && s.callers[c].flight < |s.flights|
  }

  predicate FlightIs<V>(s: State<V>, f: nat, progress: Progress)
  {
    f < |s.flights| && s.flights[f].progress == progress
  }

  predicate Enabled<V(==)>(s: State<V>, step: Step<V>)
  {
    match step
    case Refuse(_) => true
    case Join(key) => key in s.calls ==> s.calls[key] < |s.flights|
    case PickCtx(c) => CallerIs(s, c, Waiting)
    case Leave(c) => CallerIs(s, c, Leaving)
    case PickDone(c) =>
      CallerIs(s, c, Waiting) && s.flights[s.callers[c].flight].progress == Closed
        && s.flights[s.callers[c].flight].reply.Some?
    case Return(f, _) => FlightIs(s, f, Calling)
    case Free(f) => FlightIs(s, f, Returned)
    case Release(f) => FlightIs(s, f, Freed)
    case CloseDone(f) => FlightIs(s, f, Released)
  }

  function Unregister(calls: map<Key, nat>, key: Key, f: nat): map<Key, nat>
  {
    if key in calls && calls[key] == f then calls - {key} else calls
  }

  function SetStatus<V>(s: State<V>, c: nat, status: Status<V>): State<V>
    requires c < |s.callers| && s.callers[c].Attached?
  {
    s.(callers := s.callers[c := s.callers[c].(status := status)])
  }

  function Advance<V>(s: State<V>, f: nat, flight: Flight<V>): State<V>
    requires f < |s.flights|
  {
    s.(flights := s.flights[f := flight])
  }

  function Apply<V(==)>(s: State<V>, step: Step<V>): State<V>
    requires Enabled(s, step)
  {
    match step
    case Refuse(key) => s.(callers := s.callers + [Refused(key)])
    case Join(key) =>
      if key in s.calls then
        var f := s.calls[key];
        var joined := s.flights[f].(waiters := s.flights[f].waiters + 1);
        Advance(s, f, joined).(callers := s.callers + [Attached(key, f, Waiting)], coalesced := s.coalesced + 1)
      else
        var f := |s.flights|;
        s.(calls := s.calls[key := f],
           flights := s.flights + [Flight(key, Calling, false, 1, None)],
           callers := s.callers + [Attached(key, f, Waiting)],
           leaders := s.leaders + 1)
    case PickCtx(c) => SetStatus(s, c, Leaving)
    case Leave(c) =>
      var f := s.callers[c].flight;
      var left := s.flights[f].(waiters := s.flights[f].waiters - 1);
      var s1 := SetStatus(s, c, Left);
      if left.waiters > 0 then Advance(s1, f, left)
      else Advance(s1, f, left.(cancelled := true)).(calls := Unregister(s.calls, s.callers[c].key, f))
    case PickDone(c) => SetStatus(s, c, Answered(s.flights[s.callers[c].flight].reply.value))
    case Return(f, reply) => Advance(s, f, s.flights[f].(progress := Returned, reply := Some(reply)))
    case Free(f) =>
      Advance(s, f, s.flights[f].(progress := Freed)).(calls := Unregister(s.calls, s.flights[f].key, f))
    case Release(f) => Advance(s, f, s.flights[f].(progress := Released, cancelled := true))
    case CloseDone(f) => Advance(s, f, s.flights[f].(progress := Closed))
  }

  // ---------------------------------------------------------------- runs

  ghost predicate CanRun<V>(s: State<V>, steps: seq<Step<V>>)
    decreases |steps|
  {
    steps != [] ==> Enabled(s, steps[0]) && CanRun(Apply(s, steps[0]), steps[1..])
  }

  ghost function Run<V>(s: State<V>, steps: seq<Step<V>>): State<V>
    requires CanRun(s, steps)
    decreases |steps|
  {
    if steps == [] then s else Run(Apply(s, steps[0]), steps[1..])
  }

  // ---------------------------------------------------------------- the invariant

  function Stays<V>(f: nat): Caller<V> -> bool
  {
    (c: Caller<V>) => c.Attached? && c.flight == f && !c.status.Left?
  }

  function JoinedFlight<V>(): Caller<V> -> bool
  {
    (c: Caller<V>) => c.Attached?
  }

  ghost predicate RegisteredAreUsable<V>(s: State<V>)
  {
    forall k :: k in s.calls ==>
      && s.calls[k] < |s.flights|
      && s.flights[s.calls[k]].key == k
      && s.flights[s.calls[k]].Running()
      && !s.flights[s.calls[k]].cancelled
  }

  ghost predicate RunningAreRegistered<V>(s: State<V>)
  {
    forall f :: 0 <= f < |s.flights| && s.flights[f].Running() && !s.flights[f].cancelled ==>
      s.flights[f].key in s.calls && s.calls[s.flights[f].key] == f
  }

  ghost predicate WaitersAreStaying<V>(s: State<V>)
  {
    forall f :: 0 <= f < |s.flights| ==> s.flights[f].waiters == Count(Stays<V>(f), s.callers)
  }

  ghost predicate FlightOk<V>(f: Flight<V>)
  {
    && (f.reply.Some? <==> !f.progress.Calling?)
    && (f.progress.Released? || f.progress.Closed? ==> f.cancelled)
    // Until the run releases its own context, it is cancelled exactly when nobody stays.
    && (!f.progress.Released? && !f.progress.Closed? ==> (f.cancelled <==> f.waiters == 0))
  }

  ghost predicate CallerOk<V>(s: State<V>, c: Caller<V>)
  {
    c.Attached? ==>
      && c.flight < |s.flights|
      && s.flights[c.flight].key == c.key
      && (c.status.Answered? ==>
           s.flights[c.flight].progress.Closed? && s.flights[c.flight].reply == Some(c.status.reply))
  }

  ghost predicate Inv<V>(s: State<V>)
  {
    && RegisteredAreUsable(s)
    && RunningAreRegistered(s)
    && WaitersAreStaying(s)
    && (forall f :: 0 <= f < |s.flights| ==> FlightOk(s.flights[f]))
    && (forall c :: 0 <= c < |s.callers| ==> CallerOk(s, s.callers[c]))
    && s.leaders == |s.flights|
    && s.leaders + s.coalesced == Count(JoinedFlight<V>(), s.callers)
  }

  lemma InitialInv<V(!new)>()
    ensures Inv(Initial<V>())
  {
  }

  // A flight nobody has joined yet has no callers staying.
  lemma NobodyStays<V(!new)>(s: State<V>, f: nat)
    requires forall c :: 0 <= c < |s.callers| ==> CallerOk(s, s.callers[c])
    requires f >= |s.flights|
    ensures Count(Stays<V>(f), s.callers) == 0
  {
    CountZero(Stays<V>(f), s.callers);
  }

  lemma JoinKeepsCounts<V(!new)>(s: State<V>, key: Key)
    requires Inv(s) && Enabled(s, Join(key))
    ensures var t := Apply(s, Join(key));
      WaitersAreStaying(t) && t.leaders + t.coalesced == Count(JoinedFlight<V>(), t.callers)
  {
    var t := Apply(s, Join(key));
    var c := t.callers[|s.callers|];
    assert t.callers == s.callers + [c];
    CountAppend(JoinedFlight<V>(), s.callers, c);
    forall f | 0 <= f < |t.flights| ensures t.flights[f].waiters == Count(Stays<V>(f), t.callers) {
      CountAppend(Stays<V>(f), s.callers, c);
      if f == |s.flights| {
        NobodyStays(s, f);
      }
    }
  }

  lemma StatusKeepsCounts<V(!new)>(s: State<V>, c: nat, status: Status<V>)
    requires Inv(s) && c < |s.callers| && s.callers[c].Attached? && !s.callers[c].status.Left?
    ensures var t := SetStatus(s, c, status);
      && Count(JoinedFlight<V>(), t.callers) == Count(JoinedFlight<V>(), s.callers)
      && forall f :: 0 <= f < |s.flights| ==>
           Count(Stays<V>(f), t.callers)
             == s.flights[f].waiters - if status.Left? && f == s.callers[c].flight then 1 else 0
  {
    var d := s.callers[c].(status := status);
    CountUpdate(JoinedFlight<V>(), s.callers, c, d);
    forall f | 0 <= f < |s.flights|
      ensures Count(Stays<V>(f), s.callers[c := d])
           == s.flights[f].waiters - if status.Left? && f == s.callers[c].flight then 1 else 0
    {
      CountUpdate(Stays<V>(f), s.callers, c, d);
    }
  }

  lemma RefuseKeepsCounts<V(!new)>(s: State<V>, key: Key)
    requires Inv(s)
    ensures Count(JoinedFlight<V>(), s.callers + [Refused(key)]) == Count(JoinedFlight<V>(), s.callers)
    ensures forall f :: 0 <= f < |s.flights| ==> Count(Stays<V>(f), s.callers + [Refused(key)]) == s.flights[f].waiters
  {
    CountAppend(JoinedFlight<V>(), s.callers, Refused(key));
    forall f | 0 <= f < |s.flights| ensures Count(Stays<V>(f), s.callers + [Refused(key)]) == s.flights[f].waiters {
      CountAppend(Stays<V>(f), s.callers, Refused(key));
    }
  }

  // Flights are only added; a flight keeps its key, its one reply and its closed channel.
  ghost predicate Grows<V>(s: State<V>, t: State<V>)
  {
    && |s.flights| <= |t.flights|
    && forall f :: 0 <= f < |s.flights| ==>
         && t.flights[f].key == s.flights[f].key
         && (s.flights[f].reply.Some? ==> t.flights[f].reply == s.flights[f].reply)
         && (s.flights[f].progress.Closed? ==> t.flights[f].progress.Closed?)
  }

  lemma StepGrows<V(!new)>(s: State<V>, step: Step<V>)
    requires Inv(s) && Enabled(s, step)
    ensures Grows(s, Apply(s, step))
  {
    hide RegisteredAreUsable, RunningAreRegistered, WaitersAreStaying, Count;
  }

  lemma CallersStayOk<V(!new)>(s: State<V>, t: State<V>)
    requires Grows(s, t)
    requires forall c :: 0 <= c < |s.callers| ==> CallerOk(s, s.callers[c])
    ensures forall c :: 0 <= c < |s.callers| ==> CallerOk(t, s.callers[c])
  {
  }

  lemma JoinKeepsRegistry<V(!new)>(s: State<V>, key: Key)
    requires Inv(s) && Enabled(s, Join(key))
    ensures var t := Apply(s, Join(key));
      && RegisteredAreUsable(t) && RunningAreRegistered(t)
      && (forall f :: 0 <= f < |t.flights| ==> FlightOk(t.flights[f]))
  {
    assert key in s.calls ==> s.flights[s.calls[key]].waiters >= 0;
    hide CallerOk, WaitersAreStaying, Count;
  }

  lemma JoinKeepsCallers<V(!new)>(s: State<V>, key: Key)
    requires Inv(s) && Enabled(s, Join(key))
    ensures var t := Apply(s, Join(key)); forall c :: 0 <= c < |t.callers| ==> CallerOk(t, t.callers[c])
  {
    var t := Apply(s, Join(key));
    StepGrows(s, Join(key));
    CallersStayOk(s, t);
    hide Grows, RunningAreRegistered, WaitersAreStaying, FlightOk, Count;
  }

  lemma JoinKeepsInv<V(!new)>(s: State<V>, key: Key)
    requires Inv(s) && Enabled(s, Join(key))
    ensures Inv(Apply(s, Join(key)))
  {
    JoinKeepsCounts(s, key);
    JoinKeepsRegistry(s, key);
    JoinKeepsCallers(s, key);
    hide RegisteredAreUsable, RunningAreRegistered, WaitersAreStaying, FlightOk, CallerOk, Count;
  }

  lemma PickKeepsInv<V(!new)>(s: State<V>, step: Step<V>)
    requires Inv(s) && Enabled(s, step) && (step.PickCtx? || step.PickDone?)
    ensures Inv(Apply(s, step))
  {
    if step.PickCtx? {
      StatusKeepsCounts(s, step.caller, Leaving);
    } else {
      StatusKeepsCounts(s, step.caller, Answered(s.flights[s.callers[step.caller].flight].reply.value));
    }
  }

  lemma LeaveKeepsCallers<V(!new)>(s: State<V>, c: nat)
    requires Inv(s) && Enabled(s, Leave(c))
    ensures var t := Apply(s, Leave(c));
      && WaitersAreStaying(t) && t.leaders + t.coalesced == Count(JoinedFlight<V>(), t.callers)
      && forall c' :: 0 <= c' < |t.callers| ==> CallerOk(t, t.callers[c'])
  {
    StatusKeepsCounts(s, c, Left);
    StepGrows(s, Leave(c));
    CallersStayOk(s, Apply(s, Leave(c)));
  }

  lemma LeaveKeepsRegistry<V(!new)>(s: State<V>, c: nat)
    requires Inv(s) && Enabled(s, Leave(c))
    requires Apply(s, Leave(c)).flights[s.callers[c].flight].waiters >= 0
    ensures var t := Apply(s, Leave(c));
      && RegisteredAreUsable(t) && RunningAreRegistered(t)
      && (forall f :: 0 <= f < |t.flights| ==> FlightOk(t.flights[f]))
  {
    assert CallerOk(s, s.callers[c]);
    hide CallerOk, WaitersAreStaying, Count;
  }

  lemma LeaveKeepsInv<V(!new)>(s: State<V>, c: nat)
    requires Inv(s) && Enabled(s, Leave(c))
    ensures Inv(Apply(s, Leave(c)))
  {
    LeaveKeepsCallers(s, c);
    assert Apply(s, Leave(c)).flights[s.callers[c].flight].waiters >= 0;
    LeaveKeepsRegistry(s, c);
    hide RegisteredAreUsable, RunningAreRegistered, WaitersAreStaying, FlightOk, CallerOk, Count;
  }

  // What a step of the run's own goroutine leaves alone.
  lemma ProgressKeepsCallers<V(!new)>(s: State<V>, step: Step<V>)
    requires Inv(s) && Enabled(s, step) && (step.Return? || step.Free? || step.Release? || step.CloseDone?)
    ensures var t := Apply(s, step);
      && t.callers == s.callers && WaitersAreStaying(t)
      && forall c :: 0 <= c < |t.callers| ==> CallerOk(t, t.callers[c])
  {
    var t := Apply(s, step);
    assert forall f :: 0 <= f < |s.flights| ==> t.flights[f].waiters == s.flights[f].waiters;
    StepGrows(s, step);
    CallersStayOk(s, t);
  }

  lemma FreeKeepsRegistry<V(!new)>(s: State<V>, f: nat)
    requires Inv(s) && Enabled(s, Free(f))
    ensures var t := Apply(s, Free(f));
      && RegisteredAreUsable(t) && RunningAreRegistered(t)
      && (forall g :: 0 <= g < |t.flights| ==> FlightOk(t.flights[g]))
  {
    hide CallerOk, WaitersAreStaying, Count;
  }

  lemma RunKeepsRegistry<V(!new)>(s: State<V>, step: Step<V>)
    requires Inv(s) && Enabled(s, step) && (step.Return? || step.Release? || step.CloseDone?)
    ensures var t := Apply(s, step);
      && RegisteredAreUsable(t) && RunningAreRegistered(t)
      && (forall g :: 0 <= g < |t.flights| ==> FlightOk(t.flights[g]))
  {
    hide CallerOk, WaitersAreStaying, Count;
  }

  lemma ProgressKeepsInv<V(!new)>(s: State<V>, step: Step<V>)
    requires Inv(s) && Enabled(s, step) && (step.Return? || step.Free? || step.Release? || step.CloseDone?)
    ensures Inv(Apply(s, step))
  {
    ProgressKeepsCallers(s, step);
    if step.Free? {
      FreeKeepsRegistry(s, step.flight);
    } else {
      RunKeepsRegistry(s, step);
    }
    hide RegisteredAreUsable, RunningAreRegistered, WaitersAreStaying, FlightOk, CallerOk, Count;
  }

  lemma RefuseKeepsInv<V(!new)>(s: State<V>, key: Key)
    requires Inv(s)
    ensures Inv(Apply(s, Refuse(key)))
  {
    RefuseKeepsCounts(s, key);
    hide FlightOk, Count;
  }

  // Every step of every interleaving keeps the invariant.
  lemma StepKeepsInv<V(!new)>(s: State<V>, step: Step<V>)
    requires Inv(s) && Enabled(s, step)
    ensures Inv(Apply(s, step))
  {
    hide Inv, Apply, Enabled;
    match step
    case Refuse(key) => RefuseKeepsInv(s, key);
    case Join(key) => JoinKeepsInv(s, key);
    case PickCtx(_) | PickDone(_) => PickKeepsInv(s, step);
    case Leave(c) => LeaveKeepsInv(s, c);
    case Return(_, _) | Free(_) | Release(_) | CloseDone(_) => ProgressKeepsInv(s, step);
  }

  lemma {:induction false} RunKeepsInv<V(!new)>(s: State<V>, steps: seq<Step<V>>)
    requires Inv(s) && CanRun(s, steps)
    ensures Inv(Run(s, steps))
    decreases |steps|
  {
    if steps != [] {
      StepKeepsInv(s, steps[0]);
      RunKeepsInv(Apply(s, steps[0]), steps[1..]);
    }
  }

  // ---------------------------------------------------------------- what every run promises

  ghost predicate Execution<V>(steps: seq<Step<V>>) { CanRun(Initial<V>(), steps) }

  ghost function After<V>(steps: seq<Step<V>>): State<V>
    requires Execution(steps)
  {
    Run(Initial<V>(), steps)
  }

  lemma ReachableInv<V(!new)>(steps: seq<Step<V>>)
    requires Execution(steps)
    ensures Inv(After(steps))
  {
    InitialInv<V>();
    RunKeepsInv(Initial<V>(), steps);
  }

  // In every interleaving a key has at most one run that is neither cancelled nor returned,
  // and that run is the registered one.
  lemma OneLiveRunPerKey<V(!new)>(steps: seq<Step<V>>, f: nat, g: nat)
    requires Execution(steps)
    requires var s := After(steps);
      && f < |s.flights| && s.flights[f].progress.Calling? && !s.flights[f].cancelled
      && g < |s.flights| && s.flights[g].progress.Calling? && !s.flights[g].cancelled
      && s.flights[f].key == s.flights[g].key
    ensures f == g
    ensures var s := After(steps); s.flights[f].key in s.calls && s.calls[s.flights[f].key] == f
  {
    ReachableInv(steps);
  }

  function JoinedTo<V>(f: nat): Caller<V> -> bool
  {
    (c: Caller<V>) => c.Attached? && c.flight == f
  }

  function LeftFrom<V>(f: nat): Caller<V> -> bool
  {
    (c: Caller<V>) => c.Attached? && c.flight == f && c.status.Left?
  }

  lemma {:induction false} StayingIsJoinsMinusLeaves<V(!new)>(f: nat, callers: seq<Caller<V>>)
    ensures Count(Stays<V>(f), callers) == Count(JoinedTo<V>(f), callers) - Count(LeftFrom<V>(f), callers)
  {
    if callers != [] {
      StayingIsJoinsMinusLeaves(f, callers[..|callers| - 1]);
    }
  }

  // A registered flight is usable by whoever joins next: not cancelled, not done, and with
  // as many waiters as callers that joined it and have not left, at least one.
  lemma RegisteredFlights<V(!new)>(steps: seq<Step<V>>, key: Key)
    requires Execution(steps)
    requires key in After(steps).calls
    ensures var s := After(steps); var f := s.calls[key];
      && f < |s.flights| && !s.flights[f].cancelled && !s.flights[f].progress.Closed?
      && 1 <= s.flights[f].waiters == Count(JoinedTo<V>(f), s.callers) - Count(LeftFrom<V>(f), s.callers)
  {
    ReachableInv(steps);
    var s := After(steps);
    StayingIsJoinsMinusLeaves(s.calls[key], s.callers);
  }

  // The flight whose goroutine or caller takes the step.
  function Actor<V>(s: State<V>, step: Step<V>): Option<nat>
  {
    match step
    case Refuse(_) | Join(_) => None
    case PickCtx(c) => if c < |s.callers| && s.callers[c].Attached? then Some(s.callers[c].flight) else None
    case Leave(c) => if c < |s.callers| && s.callers[c].Attached? then Some(s.callers[c].flight) else None
    case PickDone(c) => if c < |s.callers| && s.callers[c].Attached? then Some(s.callers[c].flight) else None
    case Return(f, _) => Some(f)
    case Free(f) => Some(f)
    case Release(f) => Some(f)
    case CloseDone(f) => Some(f)
  }

  // A flight that was abandoned or has freed its key never unregisters anybody again,
  // however late its goroutine or its callers take their remaining steps.
  lemma LateStepsSpareTheSuccessor<V(!new)>(steps: seq<Step<V>>, late: Step<V>, f: nat)
    requires Execution(steps) && Enabled(After(steps), late) && Actor(After(steps), late) == Some(f)
    requires f < |After(steps).flights|
    requires After(steps).flights[f].cancelled || !After(steps).flights[f].Running()
    ensures Apply(After(steps), late).calls == After(steps).calls
  {
    ReachableInv(steps);
    var s := After(steps);
    if late.Leave? {
      assert CallerOk(s, s.callers[late.caller]);
    }
  }

  // A run is cancelled before fn returns only if everybody who joined it has left.
  lemma CancelledOnlyWhenAbandoned<V(!new)>(steps: seq<Step<V>>, f: nat, c: nat)
    requires Execution(steps)
    requires var s := After(steps);
      && f < |s.flights| && s.flights[f].cancelled && s.flights[f].progress.Calling?
      && c < |s.callers| && s.callers[c].Attached? && s.callers[c].flight == f
    ensures After(steps).callers[c].status.Left?
  {
    ReachableInv(steps);
    var s := After(steps);
    assert Count(Stays<V>(f), s.callers) == 0;
    CountZero(Stays<V>(f), s.callers);
    assert s.callers[c] in s.callers;
  }

  lemma {:induction false} RunGrows<V(!new)>(s: State<V>, steps: seq<Step<V>>)
    requires Inv(s) && CanRun(s, steps)
    ensures Grows(s, Run(s, steps))
    decreases |steps|
  {
    if steps != [] {
      StepGrows(s, steps[0]);
      StepKeepsInv(s, steps[0]);
      RunGrows(Apply(s, steps[0]), steps[1..]);
    }
  }

  // Two callers of one flight that are both answered, at whatever times, get the same reply.
  lemma OneReplyPerRun<V(!new)>(steps: seq<Step<V>>, more: seq<Step<V>>, c: nat, d: nat)
    requires Execution(steps) && CanRun(After(steps), more)
    requires var s := After(steps); var t := Run(s, more);
      && c < |s.callers| && s.callers[c].Attached? && s.callers[c].status.Answered?
      && d < |t.callers| && t.callers[d].Attached? && t.callers[d].status.Answered?
      && s.callers[c].flight == t.callers[d].flight
    ensures After(steps).callers[c].status == Run(After(steps), more).callers[d].status
  {
    ReachableInv(steps);
    var s := After(steps);
    RunKeepsInv(s, more);
    RunGrows(s, more);
    assert CallerOk(s, s.callers[c]) && CallerOk(Run(s, more), Run(s, more).callers[d]);
  }

  // What the run still has to do, and then the caller's pick.
  function Remaining<V>(progress: Progress, f: nat, c: nat): seq<Step<V>>
  {
    match progress
    case Calling => []
    case Returned => [Free(f), Release(f), CloseDone(f), PickDone(c)]
    case Freed => [Release(f), CloseDone(f), PickDone(c)]
    case Released => [CloseDone(f), PickDone(c)]
    case Closed => [PickDone(c)]
  }

  lemma OneStepOn<V(!new)>(s: State<V>, c: nat)
    requires Inv(s) && CallerIs(s, c, Waiting)
    requires var p := s.flights[s.callers[c].flight].progress; !p.Calling? && !p.Closed?
    ensures var f := s.callers[c].flight; var step := Remaining<V>(s.flights[f].progress, f, c)[0];
      && Enabled(s, step)
      && var t := Apply(s, step);
      && t.callers == s.callers && |t.flights| == |s.flights| && t.flights[f].reply == s.flights[f].reply
      && t.flights[f].progress == (match s.flights[f].progress
                                   case Returned => Freed case Freed => Released case _ => Closed)
  {
    hide RegisteredAreUsable, RunningAreRegistered, WaitersAreStaying, Count, FlightOk, CallerOk;
  }

  lemma RunStarts<V(!new)>(s: State<V>, step: Step<V>, rest: seq<Step<V>>)
    requires Enabled(s, step) && CanRun(Apply(s, step), rest)
    ensures CanRun(s, [step] + rest) && Run(s, [step] + rest) == Run(Apply(s, step), rest)
  {
    assert ([step] + rest)[1..] == rest;
  }

  lemma RunEnds<V(!new)>(s: State<V>)
    ensures CanRun(s, []) && Run(s, []) == s
  {
  }

  // From the moment fn has returned, the run's own remaining steps, which nothing can block,
  // lead to the waiting caller being answered with the reply fn gave.
  lemma ReturnedRunAnswers<V(!new)>(s: State<V>, c: nat)
    requires Inv(s) && CallerIs(s, c, Waiting) && !s.flights[s.callers[c].flight].progress.Calling?
    ensures var f := s.callers[c].flight; var flight := s.flights[f];
      && flight.reply.Some?
      && CanRun(s, Remaining(flight.progress, f, c))
      && CallerIs(Run(s, Remaining(flight.progress, f, c)), c, Answered(flight.reply.value))
    decreases match s.flights[s.callers[c].flight].progress
              case Calling => 5 case Returned => 4 case Freed => 3 case Released => 2 case Closed => 1
  {
    hide RegisteredAreUsable, RunningAreRegistered, WaitersAreStaying, CallerOk, Count, CanRun, Run;
    var f := s.callers[c].flight;
    var step := Remaining<V>(s.flights[f].progress, f, c)[0];
    var t := Apply(s, step);
    if s.flights[f].progress.Closed? {
      RunEnds(t);
      RunStarts(s, step, []);
      assert [step] + [] == Remaining<V>(s.flights[f].progress, f, c);
    } else {
      OneStepOn(s, c);
      StepKeepsInv(s, step);
      hide Apply, Enabled;
      ReturnedRunAnswers(t, c);
      RunStarts(s, step, Remaining<V>(t.flights[f].progress, f, c));
      assert [step] + Remaining<V>(t.flights[f].progress, f, c) == Remaining<V>(s.flights[f].progress, f, c);
    }
  }

  // No waiter is stranded: while fn is being called the run of a waiting caller is not
  // cancelled, and once fn has returned nothing can keep its reply from the caller.
  lemma NoWaiterIsStranded<V(!new)>(s: State<V>, c: nat)
    requires Inv(s) && CallerIs(s, c, Waiting)
    ensures var f := s.callers[c].flight; var flight := s.flights[f];
      if flight.progress.Calling? then
        !flight.cancelled && flight.key in s.calls && s.calls[flight.key] == f
      else
        && flight.reply.Some?
        && CanRun(s, Remaining(flight.progress, f, c))
        && CallerIs(Run(s, Remaining(flight.progress, f, c)), c, Answered(flight.reply.value))
  {
    var f := s.callers[c].flight;
    if s.flights[f].progress.Calling? {
      CountZero(Stays<V>(f), s.callers);
      assert s.callers[c] in s.callers;
    } else {
      ReturnedRunAnswers(s, c);
    }
  }

  // Every started run is one leader, and every attached caller is a leader or coalesced.
  lemma LeadersStartRuns<V(!new)>(steps: seq<Step<V>>)
    requires Execution(steps)
    ensures var s := After(steps);
      s.leaders == |s.flights| && s.leaders + s.coalesced == Count(JoinedFlight<V>(), s.callers)
  {
    ReachableInv(steps);
  }

  // ---------------------------------------------------------------- provenance of answers

  // Every reply fn gives in the run fits the key it was called for.
  ghost predicate RepliesFit<V>(s: State<V>, steps: seq<Step<V>>, fits: (Key, Reply<V>) -> bool)
    requires CanRun(s, steps)
    decreases |steps|
  {
    steps != [] ==>
      && (steps[0].Return? ==> fits(s.flights[steps[0].flight].key, steps[0].reply))
      && RepliesFit(Apply(s, steps[0]), steps[1..], fits)
  }

  ghost predicate FlightsFit<V>(s: State<V>, fits: (Key, Reply<V>) -> bool)
  {
    forall f :: 0 <= f < |s.flights| && s.flights[f].reply.Some? ==> fits(s.flights[f].key, s.flights[f].reply.value)
  }

  lemma {:induction false} FlightsStayFit<V(!new)>(s: State<V>, steps: seq<Step<V>>, fits: (Key, Reply<V>) -> bool)
    requires CanRun(s, steps) && RepliesFit(s, steps, fits) && FlightsFit(s, fits)
    ensures FlightsFit(Run(s, steps), fits)
    decreases |steps|
  {
    if steps != [] {
      FlightsStayFit(Apply(s, steps[0]), steps[1..], fits);
    }
  }

  // So whatever property ties the upstream's answers to their keys, every answered caller
  // got a reply with that property for its own key.
  lemma AnswersFitTheirKeys<V(!new)>(steps: seq<Step<V>>, fits: (Key, Reply<V>) -> bool, c: nat)
    requires Execution(steps) && RepliesFit(Initial<V>(), steps, fits)
    requires var s := After(steps); c < |s.callers| && s.callers[c].Attached? && s.callers[c].status.Answered?
    ensures var caller := After(steps).callers[c]; fits(caller.key, caller.status.reply)
  {
    ReachableInv(steps);
    FlightsStayFit(Initial<V>(), steps, fits);
    var s := After(steps);
    assert CallerOk(s, s.callers[c]);
  }
}
