// The bounded event publisher (internal/events/redpanda.go): Publish, the client's delivery
// callbacks and Close as a transition system, every atomic operation and lock section a step.
module Publishing {
  import opened Collections

  // Where a call of Publish stands. It holds the read lock from Locked to Leaving.
  datatype Place = Entered | Locked | Open | Accepted | Rolling | Leaving | Returned
  {
    predicate HoldsLock() { Locked? || Open? || Accepted? || Rolling? || Leaving? }
  }

  // What became of the event. Pending: handed to the client, callback still to come.
  datatype Fate = Undecided | EncodeError | ClosedError | BufferFull | Pending | Delivered | Lost

  datatype Call = Call(place: Place, fate: Fate)

  // The metric series: published, and publish errors by reason.
  datatype Counters = Counters(published: nat, encode: nat, closed: nat, bufferFull: nat, delivery: nat)

  datatype State = State(inflight: int, closed: bool, calls: seq<Call>, counters: Counters, handed: nat)

  datatype Step =
    | Enter
    | FailEncode(p: nat)
    | RLock(p: nat)
    | CheckClosed(p: nat)
    | Add(p: nat)              // inflight.Add(1) > limit
    | Rollback(p: nat)         // inflight.Add(-1)
    | Produce(p: nat)          // TryProduce
    | RUnlock(p: nat)
    | Deliver(p: nat, ok: bool)  // the callback of the event of call p
    | Close                    // the locked section of Close

  function Initial(): State { State(0, false, [], Counters(0, 0, 0, 0, 0), 0) }

  predicate At(s: State, p: nat, place: Place) { p < |s.calls| && s.calls[p].place == place }

  predicate NoReaders(s: State) { forall p :: 0 <= p < |s.calls| ==> !s.calls[p].place.HoldsLock() }

  predicate Enabled(s: State, step: Step)
  {
    match step
    case Enter => true
    case FailEncode(p) => At(s, p, Entered)
    case RLock(p) => At(s, p, Entered)
    case CheckClosed(p) => At(s, p, Locked)
    case Add(p) => At(s, p, Open)
    case Rollback(p) => At(s, p, Rolling)
    case Produce(p) => At(s, p, Accepted)
    case RUnlock(p) => At(s, p, Leaving)
    case Deliver(p, _) => p < |s.calls| && s.calls[p].fate.Pending?
    case Close => NoReaders(s)
  }

  function Set(s: State, p: nat, place: Place, fate: Fate): State
    requires p < |s.calls|
  {
    s.(calls := s.calls[p := Call(place, fate)])
  }

  function Apply(limit: nat, s: State, step: Step): State
    requires Enabled(s, step)
  {
    var k := s.counters;
    match step
    case Enter => s.(calls := s.calls + [Call(Entered, Undecided)])
    case FailEncode(p) => Set(s, p, Returned, EncodeError).(counters := k.(encode := k.encode + 1))
    case RLock(p) => Set(s, p, Locked, Undecided)
    case CheckClosed(p) =>
      if s.closed then Set(s, p, Leaving, ClosedError).(counters := k.(closed := k.closed + 1))
      else Set(s, p, Open, Undecided)
    case Add(p) =>
      Set(s, p, if s.inflight + 1 > limit then Rolling else Accepted, Undecided).(inflight := s.inflight + 1)
    case Rollback(p) =>
      Set(s, p, Leaving, BufferFull).(inflight := s.inflight - 1, counters := k.(bufferFull := k.bufferFull + 1))
    case Produce(p) => Set(s, p, Leaving, Pending).(handed := s.handed + 1)
    case RUnlock(p) => Set(s, p, Returned, s.calls[p].fate)
    case Deliver(p, ok) =>
      Set(s, p, s.calls[p].place, if ok then Delivered else Lost).(inflight := s.inflight - 1,
        counters := if ok then k.(published := k.published + 1) else k.(delivery := k.delivery + 1))
    case Close => s.(closed := true)
  }

  ghost predicate CanRun(limit: nat, s: State, steps: seq<Step>)
    decreases |steps|
  {
    steps != [] ==> Enabled(s, steps[0]) && CanRun(limit, Apply(limit, s, steps[0]), steps[1..])
  }

  ghost function Run(limit: nat, s: State, steps: seq<Step>): State
    requires CanRun(limit, s, steps)
    decreases |steps|
  {
    if steps == [] then s else Run(limit, Apply(limit, s, steps[0]), steps[1..])
  }

  // ---------------------------------------------------------------- the invariant

  // Accepted by the limit and not yet delivered.
  predicate Outstanding(c: Call) { c.place.Accepted? || c.fate.Pending? }
  // Between a rejected add and its rollback.
  predicate BetweenAddAndRollback(c: Call) { c.place.Rolling? }
  predicate WasHanded(c: Call) { c.fate.Pending? || c.fate.Delivered? || c.fate.Lost? }

  function HasFate(fate: Fate): Call -> bool { (c: Call) => c.fate == fate }

  ghost predicate CallOk(c: Call)
  {
    c.fate.Undecided? <==> !c.place.Leaving? && !c.place.Returned?
  }

  ghost predicate CountersOk(s: State)
  {
    && s.counters.published == Count(HasFate(Delivered), s.calls)
    && s.counters.delivery == Count(HasFate(Lost), s.calls)
    && s.counters.encode == Count(HasFate(EncodeError), s.calls)
    && s.counters.closed == Count(HasFate(ClosedError), s.calls)
    && s.counters.bufferFull == Count(HasFate(BufferFull), s.calls)
  }

  ghost predicate Inv(limit: nat, s: State)
  {
    && CountsOk(limit, s)
    && CountersOk(s)
    && CallsOk(s)
  }

  ghost predicate CountsOk(limit: nat, s: State)
  {
    && s.inflight == Count(Outstanding, s.calls) + Count(BetweenAddAndRollback, s.calls)
    && Count(Outstanding, s.calls) <= limit
    && s.handed == Count(WasHanded, s.calls)
  }

  lemma StepKeepsCounts(limit: nat, s: State, step: Step)
    requires Inv(limit, s) && Enabled(s, step) && !step.Enter? && !step.Close?
    ensures CountsOk(limit, Apply(limit, s, step))
  {
    hide Count;
    var p, c := step.p, Apply(limit, s, step).calls[step.p];
    assert CallOk(s.calls[p]);
    CountUpdate(Outstanding, s.calls, p, c);
    CountUpdate(BetweenAddAndRollback, s.calls, p, c);
    CountUpdate(WasHanded, s.calls, p, c);
  }

  lemma StepKeepsCounters(limit: nat, s: State, step: Step)
    requires Inv(limit, s) && Enabled(s, step) && !step.Enter? && !step.Close?
    ensures CountersOk(Apply(limit, s, step))
  {
    hide Count;
    var p, c := step.p, Apply(limit, s, step).calls[step.p];
    assert CallOk(s.calls[p]);
    CountUpdate(HasFate(Delivered), s.calls, p, c);
    CountUpdate(HasFate(Lost), s.calls, p, c);
    CountUpdate(HasFate(EncodeError), s.calls, p, c);
    CountUpdate(HasFate(ClosedError), s.calls, p, c);
    CountUpdate(HasFate(BufferFull), s.calls, p, c);
  }

  lemma EnterKeepsInv(limit: nat, s: State)
    requires Inv(limit, s)
    ensures Inv(limit, Apply(limit, s, Enter))
  {
    var c := Call(Entered, Undecided);
    CountAppend(Outstanding, s.calls, c);
    CountAppend(BetweenAddAndRollback, s.calls, c);
    CountAppend(WasHanded, s.calls, c);
    CountAppend(HasFate(Delivered), s.calls, c);
    CountAppend(HasFate(Lost), s.calls, c);
    CountAppend(HasFate(EncodeError), s.calls, c);
    CountAppend(HasFate(ClosedError), s.calls, c);
    CountAppend(HasFate(BufferFull), s.calls, c);
  }

  ghost predicate CallsOk(s: State)
  {
    && (forall p :: 0 <= p < |s.calls| ==> CallOk(s.calls[p]))
    && (s.closed ==> forall p :: 0 <= p < |s.calls| ==>
          !s.calls[p].place.Open? && !s.calls[p].place.Accepted? && !s.calls[p].place.Rolling?)
  }

  lemma StepKeepsCalls(limit: nat, s: State, step: Step)
    requires CallsOk(s) && Enabled(s, step)
    ensures CallsOk(Apply(limit, s, step))
  {
  }

  lemma StepKeepsInv(limit: nat, s: State, step: Step)
    requires Inv(limit, s) && Enabled(s, step)
    ensures Inv(limit, Apply(limit, s, step))
  {
    if step.Enter? {
      EnterKeepsInv(limit, s);
    } else if !step.Close? {
      StepKeepsCounts(limit, s, step);
      StepKeepsCounters(limit, s, step);
      StepKeepsCalls(limit, s, step);
    }
  }

  lemma {:induction false} RunKeepsInv(limit: nat, s: State, steps: seq<Step>)
    requires Inv(limit, s) && CanRun(limit, s, steps)
    ensures Inv(limit, Run(limit, s, steps))
    decreases |steps|
  {
    if steps != [] {
      StepKeepsInv(limit, s, steps[0]);
      RunKeepsInv(limit, Apply(limit, s, steps[0]), steps[1..]);
    }
  }

  // ---------------------------------------------------------------- what every run promises

  ghost predicate Execution(limit: nat, steps: seq<Step>) { CanRun(limit, Initial(), steps) }

  ghost function After(limit: nat, steps: seq<Step>): State
    requires Execution(limit, steps)
  {
    Run(limit, Initial(), steps)
  }

  lemma ReachableInv(limit: nat, steps: seq<Step>)
    requires Execution(limit, steps)
    ensures Inv(limit, After(limit, steps))
  {
    RunKeepsInv(limit, Initial(), steps);
  }

  // Accepted but undelivered events never exceed the limit, and the counter is their number
  // plus the publishers between a rejected add and its rollback.
  lemma NeverOverTheLimit(limit: nat, steps: seq<Step>)
    requires Execution(limit, steps)
    ensures var s := After(limit, steps);
      && Count(Outstanding, s.calls) <= limit
      && s.inflight == Count(Outstanding, s.calls) + Count(BetweenAddAndRollback, s.calls)
  {
    ReachableInv(limit, steps);
  }

  // An add below the limit is accepted and one at the limit rolled back; while nobody is about
  // to roll back, the limit is reached only by that many events accepted and undelivered.
  lemma AddBelowTheLimitIsAccepted(limit: nat, steps: seq<Step>, p: nat)
    requires Execution(limit, steps) && Enabled(After(limit, steps), Add(p))
    ensures var s, t := After(limit, steps), Apply(limit, After(limit, steps), Add(p));
      && t.calls[p].place == (if s.inflight < limit then Accepted else Rolling)
      && (Count(BetweenAddAndRollback, s.calls) == 0 ==>
           (t.calls[p].place == Accepted <==> Count(Outstanding, s.calls) < limit))
  {
    ReachableInv(limit, steps);
  }

  lemma {:induction false} ClosedForGood(limit: nat, s: State, steps: seq<Step>)
    requires Inv(limit, s) && s.closed && CanRun(limit, s, steps)
    ensures Run(limit, s, steps).handed == s.handed && Run(limit, s, steps).closed
    decreases |steps|
  {
    if steps != [] {
      StepKeepsInv(limit, s, steps[0]);
      ClosedForGood(limit, Apply(limit, s, steps[0]), steps[1..]);
    }
  }

  // Once Close has taken the lock no event is handed to the client any more, so a flush
  // after it waits for a fixed set of events.
  lemma NothingIsHandedAfterClose(limit: nat, steps: seq<Step>, more: seq<Step>)
    requires Execution(limit, steps) && Enabled(After(limit, steps), Close)
    requires CanRun(limit, Apply(limit, After(limit, steps), Close), more)
    ensures Run(limit, Apply(limit, After(limit, steps), Close), more).handed == After(limit, steps).handed
  {
    ReachableInv(limit, steps);
    StepKeepsInv(limit, After(limit, steps), Close);
    ClosedForGood(limit, Apply(limit, After(limit, steps), Close), more);
  }

  lemma {:induction false} FatesPartition(calls: seq<Call>)
    ensures |calls| == Count(HasFate(Undecided), calls) + Count(HasFate(Pending), calls)
      + Count(HasFate(Delivered), calls) + Count(HasFate(Lost), calls) + Count(HasFate(EncodeError), calls)
      + Count(HasFate(ClosedError), calls) + Count(HasFate(BufferFull), calls)
  {
    if calls != [] {
      FatesPartition(calls[..|calls| - 1]);
    }
  }

  // Each call is counted under exactly one outcome: when every call has returned and every
  // callback has run, the five counters add up to the calls, and the callbacks to the events
  // handed over.
  lemma EveryCallIsCountedOnce(limit: nat, steps: seq<Step>)
    requires Execution(limit, steps)
    ensures var s := After(limit, steps); var k := s.counters;
      && k.published + k.encode + k.closed + k.bufferFull + k.delivery
           == |s.calls| - Count(HasFate(Undecided), s.calls) - Count(HasFate(Pending), s.calls)
      && k.published + k.delivery == s.handed - Count(HasFate(Pending), s.calls)
  {
    ReachableInv(limit, steps);
    FatesPartition(After(limit, steps).calls);
    HandedPartition(After(limit, steps).calls);
  }

  lemma {:induction false} HandedPartition(calls: seq<Call>)
    ensures Count(WasHanded, calls)
      == Count(HasFate(Pending), calls) + Count(HasFate(Delivered), calls) + Count(HasFate(Lost), calls)
  {
    if calls != [] {
      HandedPartition(calls[..|calls| - 1]);
    }
  }

  lemma FateAfterStep(limit: nat, s: State, step: Step, p: nat)
    requires Inv(limit, s) && Enabled(s, step) && p < |s.calls|
    ensures p < |Apply(limit, s, step).calls|
    ensures var before, after := s.calls[p].fate, Apply(limit, s, step).calls[p].fate;
      && (!before.Undecided? && !before.Pending? ==> after == before)
      && (before.Pending? ==> after.Pending? || after.Delivered? || after.Lost?)
  {
  }

  // The fate of a call is decided once, and a decided fate other than Pending never changes.
  lemma {:induction false} FatesAreFinal(limit: nat, s: State, steps: seq<Step>, p: nat)
    requires Inv(limit, s) && CanRun(limit, s, steps) && p < |s.calls|
    ensures p < |Run(limit, s, steps).calls|
    ensures var before, after := s.calls[p].fate, Run(limit, s, steps).calls[p].fate;
      && (!before.Undecided? && !before.Pending? ==> after == before)
      && (before.Pending? ==> after.Pending? || after.Delivered? || after.Lost?)
    decreases |steps|
  {
    if steps != [] {
      StepKeepsInv(limit, s, steps[0]);
      FateAfterStep(limit, s, steps[0], p);
      hide Inv, Apply, Enabled;
      FatesAreFinal(limit, Apply(limit, s, steps[0]), steps[1..], p);
    }
  }

  // ---------------------------------------------------------------- the publisher object

  // The fields of Redpanda with the metric series it feeds; state is the whole system of calls
  // and callbacks it acts in.
  class Redpanda {
    const limit: nat
    var inflight: int
    var closed: bool
    var counters: Counters
    ghost var state: State

    ghost predicate Valid()
      reads this
    {
      && Inv(limit, state)
      && inflight == state.inflight && closed == state.closed && counters == state.counters
    }

    constructor (limit: nat)
      ensures Valid() && this.limit == limit && state == Initial()
    {
      this.limit := limit;
      inflight, closed, counters, state := 0, false, Counters(0, 0, 0, 0, 0), Initial();
    }

    // The event could not be encoded: the call ends before it takes the lock.
    method FailEncode(ghost p: nat)
      requires Valid() && Enabled(state, Step.FailEncode(p))
      modifies this
      ensures Valid() && state == Apply(limit, old(state), Step.FailEncode(p))
    {
      StepKeepsInv(limit, state, Step.FailEncode(p));
      counters := counters.(encode := counters.encode + 1);
      state := Apply(limit, state, Step.FailEncode(p));
    }

    method CheckClosed(ghost p: nat) returns (open: bool)
      requires Valid() && Enabled(state, Step.CheckClosed(p))
      modifies this
      ensures Valid() && state == Apply(limit, old(state), Step.CheckClosed(p))
      ensures open <==> At(state, p, Open)
      ensures open <==> !old(closed)
    {
      StepKeepsInv(limit, state, Step.CheckClosed(p));
      open := !closed;
      if closed {
        counters := counters.(closed := counters.closed + 1);
      }
      state := Apply(limit, state, Step.CheckClosed(p));
    }

    // inflight.Add(1) > limit, as one atomic operation.
    method Add(ghost p: nat) returns (accepted: bool)
      requires Valid() && Enabled(state, Step.Add(p))
      modifies this
      ensures Valid() && state == Apply(limit, old(state), Step.Add(p))
      ensures accepted <==> At(state, p, Accepted)
      ensures accepted <==> old(inflight) < limit
    {
      StepKeepsInv(limit, state, Step.Add(p));
      inflight := inflight + 1;
      accepted := !(inflight > limit);
      state := Apply(limit, state, Step.Add(p));
    }

    method Rollback(ghost p: nat)
      requires Valid() && Enabled(state, Step.Rollback(p))
      modifies this
      ensures Valid() && state == Apply(limit, old(state), Step.Rollback(p))
    {
      StepKeepsInv(limit, state, Step.Rollback(p));
      inflight := inflight - 1;
      counters := counters.(bufferFull := counters.bufferFull + 1);
      state := Apply(limit, state, Step.Rollback(p));
    }

    method Deliver(ghost p: nat, ok: bool)
      requires Valid() && Enabled(state, Step.Deliver(p, ok))
      modifies this
      ensures Valid() && state == Apply(limit, old(state), Step.Deliver(p, ok))
    {
      StepKeepsInv(limit, state, Step.Deliver(p, ok));
      inflight := inflight - 1;
      if ok {
        counters := counters.(published := counters.published + 1);
      } else {
        counters := counters.(delivery := counters.delivery + 1);
      }
      state := Apply(limit, state, Step.Deliver(p, ok));
    }

    // Close under the write lock; true for the one call that goes on to flush.
    method Close() returns (first: bool)
      requires Valid() && Enabled(state, Step.Close)
      modifies this
      ensures Valid() && state == Apply(limit, old(state), Step.Close)
      ensures first <==> !old(closed)
    {
      StepKeepsInv(limit, state, Step.Close);
      first := !closed;
      closed := true;
      state := Apply(limit, state, Step.Close);
    }
  }
}
