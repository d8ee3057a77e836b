// The rate limiter shared by every MusicBrainz request (internal/provider/musicbrainz.go):
// one turn token that carries the time before which the next request must not start, as a
// transition system over the callers' steps and the clock.
module RateLimiting {
  import opened Collections

  // Nanoseconds; the zero time of a new limiter is 0 and the clock never runs backwards.
  type Time = nat

  datatype RetryAfter = Absent | Seconds(n: int) | Date(at: Time)

  // parseRetryAfter: a delay in seconds or an HTTP date, as in section 10.2.3 of RFC 9110;
  // anything unusable is no wait.
  function WaitAsked(header: RetryAfter, now: Time): nat
  {
    match header
    case Absent => 0
    case Seconds(n) => if n < 0 then 0 else n * 1_000_000_000
    case Date(at) => if at > now then at - now else 0
  }

  // Why a response did not come or broke off: the network, the HTTP client's own timeout, or
  // the end of the context the request was made with, by its deadline or not.
  datatype Silence = NetworkError | ClientTimeout | ContextEnded(deadline: bool)

  // How one HTTP exchange ended. A bad body broke off, or does not decode.
  datatype Response =
    | Answered
    | NoSuchEntity
    | Refused(status: int, header: RetryAfter)
    | NoResponse(why: Silence)
    | BadBody(brokeOff: Option<Silence>)

  // The backoff attempt hands to release.
  function Backoff(r: Response, now: Time, cap: nat): nat
  {
    if r.Refused? then Min(WaitAsked(r.header, now), cap) else 0
  }

  // A caller's place in acquire, attempt and release. It holds the turn from Pausing on.
  datatype Caller =
    | Queued
    | Pausing(notBefore: Time)
    | Ready(notBefore: Time)
    | Requesting(notBefore: Time, start: Time)
    | Responded(notBefore: Time, end: Time, backoff: nat)
    | Gone
  {
    predicate Holds() { Pausing? || Ready? || Requesting? || Responded? }
  }

  // interval may be any duration: a negative one never shortens a pause.
  datatype Config = Config(interval: int, cap: nat)

  datatype Event = Started(at: Time) | Ended(at: Time, backoff: nat)

  datatype State = State(now: Time, slot: Option<Time>, callers: seq<Caller>, log: seq<Event>, stored: seq<Time>)

  datatype Step =
    | Tick(d: nat)
    | Arrive
    | TakeTurn(c: nat)
    | GiveUpQueue(c: nat)     // ctx ends while waiting for the turn
    | Wake(c: nat)            // the timer fires
    | GiveUpPause(c: nat)     // ctx ends during the pause: the unused turn is put back
    | Start(c: nat)
    | Respond(c: nat, r: Response)
    | Release(c: nat)

  function Initial(): State { State(0, Some(0), [], [], [0]) }

  predicate Enabled(s: State, step: Step)
  {
    match step
    case Tick(_) => true
    case Arrive => true
    case TakeTurn(c) => c < |s.callers| && s.callers[c].Queued? && s.slot.Some?
    case GiveUpQueue(c) => c < |s.callers| && s.callers[c].Queued?
    case Wake(c) => c < |s.callers| && s.callers[c].Pausing? && s.callers[c].notBefore <= s.now
    case GiveUpPause(c) => c < |s.callers| && s.callers[c].Pausing?
    case Start(c) => c < |s.callers| && s.callers[c].Ready?
    case Respond(c, _) => c < |s.callers| && s.callers[c].Requesting?
    case Release(c) => c < |s.callers| && s.callers[c].Responded?
  }

  // A send on the slot: the channel has capacity one, so it would block on a full slot.
  function Store(s: State, c: nat, t: Time): State
    requires c < |s.callers|
  {
    s.(slot := Some(t), stored := s.stored + [t], callers := s.callers[c := Gone])
  }

  function Move(s: State, c: nat, caller: Caller): State
    requires c < |s.callers|
  {
    s.(callers := s.callers[c := caller])
  }

  function ReleaseTime(cfg: Config, now: Time, backoff: nat): Time { now + Max(cfg.interval, backoff) }

  function Apply(cfg: Config, s: State, step: Step): State
    requires Enabled(s, step)
  {
    match step
    case Tick(d) => s.(now := s.now + d)
    case Arrive => s.(callers := s.callers + [Queued])
    case TakeTurn(c) =>
      var nb := s.slot.value;
      Move(s, c, if nb > s.now then Pausing(nb) else Ready(nb)).(slot := None)
    case GiveUpQueue(c) => Move(s, c, Gone)
    case Wake(c) => Move(s, c, Ready(s.callers[c].notBefore))
    case GiveUpPause(c) => Store(s, c, s.callers[c].notBefore)
    case Start(c) => Move(s, c, Requesting(s.callers[c].notBefore, s.now)).(log := s.log + [Started(s.now)])
    case Respond(c, r) =>
      var backoff := Backoff(r, s.now, cfg.cap);
      Move(s, c, Responded(s.callers[c].notBefore, s.now, backoff)).(log := s.log + [Ended(s.now, backoff)])
    case Release(c) => Store(s, c, ReleaseTime(cfg, s.now, s.callers[c].backoff))
  }

  ghost predicate CanRun(cfg: Config, s: State, steps: seq<Step>)
    decreases |steps|
  {
    steps != [] ==> Enabled(s, steps[0]) && CanRun(cfg, Apply(cfg, s, steps[0]), steps[1..])
  }

  ghost function Run(cfg: Config, s: State, steps: seq<Step>): State
    requires CanRun(cfg, s, steps)
    decreases |steps|
  {
    if steps == [] then s else Run(cfg, Apply(cfg, s, steps[0]), steps[1..])
  }

  // ---------------------------------------------------------------- the invariant

  predicate HoldsTurn(c: Caller) { c.Holds() }

  // Tokens in the slot plus tokens with callers.
  function Tokens(s: State): nat { (if s.slot.Some? then 1 else 0) + Count(HoldsTurn, s.callers) }

  // The pause an event demands before a later start.
  function Demand(cfg: Config, e: Event): int
  {
    match e
    case Started(at) => at + Max(cfg.interval, 0)
    case Ended(at, backoff) => at + Max(cfg.interval, backoff)
  }

  // Every pause demanded so far ends by t.
  ghost predicate PausesOver(cfg: Config, log: seq<Event>, t: int)
  {
    forall i :: 0 <= i < |log| ==> Demand(cfg, log[i]) <= t
  }

  ghost predicate HolderOk(cfg: Config, s: State, c: Caller)
  {
    match c
    case Queued | Gone => true
    case Pausing(nb) => PausesOver(cfg, s.log, nb) && StoredBelow(s, nb)
    case Ready(nb) => PausesOver(cfg, s.log, s.now) && StoredBelow(s, s.now)
    case Requesting(nb, start) =>
      && |s.log| >= 1 && s.log[|s.log| - 1] == Started(start) && start <= s.now
      && PausesOver(cfg, s.log[..|s.log| - 1], start) && StoredBelow(s, start)
    case Responded(nb, end, backoff) =>
      && |s.log| >= 2 && s.log[|s.log| - 1] == Ended(end, backoff) && end <= s.now
      && s.log[|s.log| - 2].Started? && s.log[|s.log| - 2].at <= end
      && PausesOver(cfg, s.log[..|s.log| - 2], s.log[|s.log| - 2].at) && StoredBelow(s, end)
  }

  ghost predicate StoredBelow(s: State, t: int) { forall i :: 0 <= i < |s.stored| ==> s.stored[i] <= t }

  // Every start comes after all the pauses that earlier events demanded.
  ghost predicate StartsRespectPauses(cfg: Config, log: seq<Event>)
  {
    forall i, j :: 0 <= i < j < |log| && log[j].Started? ==> Demand(cfg, log[i]) <= log[j].at
  }

  ghost predicate Nondecreasing(times: seq<Time>) { forall i, j :: 0 <= i < j < |times| ==> times[i] <= times[j] }

  ghost predicate Inv(cfg: Config, s: State)
  {
    && Tokens(s) == 1
    && (s.slot.Some? ==> PausesOver(cfg, s.log, s.slot.value) && StoredBelow(s, s.slot.value))
    && (forall c :: 0 <= c < |s.callers| ==> HolderOk(cfg, s, s.callers[c]))
    && StartsRespectPauses(cfg, s.log)
    && Nondecreasing(s.stored)
  }

  lemma OneHolder(s: State, c: nat, d: nat)
    requires Tokens(s) == 1 && c < |s.callers| && d < |s.callers| && s.callers[c].Holds()
    ensures s.slot.None?
    ensures s.callers[d].Holds() ==> d == c
  {
    if d != c && s.callers[d].Holds() {
      CountTwo(HoldsTurn, s.callers, if c < d then c else d, if c < d then d else c);
    }
    assert s.callers[c] in s.callers;
    CountZero(HoldsTurn, s.callers);
  }

  lemma NoHolder(s: State, c: nat)
    requires Tokens(s) == 1 && s.slot.Some? && c < |s.callers|
    ensures !s.callers[c].Holds()
  {
    CountZero(HoldsTurn, s.callers);
    assert s.callers[c] in s.callers;
  }

  // The one turn token is conserved by every step.
  lemma StepKeepsToken(cfg: Config, s: State, step: Step)
    requires Inv(cfg, s) && Enabled(s, step)
    ensures Tokens(Apply(cfg, s, step)) == 1
  {
    var t := Apply(cfg, s, step);
    match step
    case Tick(_) =>
    case Arrive => CountAppend(HoldsTurn, s.callers, Queued);
    case TakeTurn(c) => CountUpdate(HoldsTurn, s.callers, c, t.callers[c]);
    case GiveUpQueue(c) => CountUpdate(HoldsTurn, s.callers, c, t.callers[c]);
    case Wake(c) => CountUpdate(HoldsTurn, s.callers, c, t.callers[c]);
    case GiveUpPause(c) => OneHolder(s, c, c); CountUpdate(HoldsTurn, s.callers, c, t.callers[c]);
    case Start(c) => CountUpdate(HoldsTurn, s.callers, c, t.callers[c]);
    case Respond(c, _) => CountUpdate(HoldsTurn, s.callers, c, t.callers[c]);
    case Release(c) => OneHolder(s, c, c); CountUpdate(HoldsTurn, s.callers, c, t.callers[c]);
  }

  lemma OthersDoNotHold(cfg: Config, s: State, c: nat)
    requires Inv(cfg, s) && c < |s.callers| && s.callers[c].Holds()
    ensures forall d :: 0 <= d < |s.callers| && d != c ==> !s.callers[d].Holds()
  {
    forall d | 0 <= d < |s.callers| && d != c ensures !s.callers[d].Holds() {
      OneHolder(s, c, d);
    }
  }

  lemma TakeKeepsInv(cfg: Config, s: State, c: nat)
    requires Inv(cfg, s) && Enabled(s, TakeTurn(c))
    ensures Inv(cfg, Apply(cfg, s, TakeTurn(c)))
  {
    StepKeepsToken(cfg, s, TakeTurn(c));
    forall d | 0 <= d < |s.callers| ensures !s.callers[d].Holds() {
      NoHolder(s, d);
    }
  }

  lemma PauseKeepsInv(cfg: Config, s: State, step: Step)
    requires Inv(cfg, s) && Enabled(s, step) && (step.Wake? || step.GiveUpPause?)
    ensures Inv(cfg, Apply(cfg, s, step))
  {
    StepKeepsToken(cfg, s, step);
    OthersDoNotHold(cfg, s, step.c);
  }

  // A start logged at a time when every pause is over.
  lemma StartsStaySpread(cfg: Config, log: seq<Event>, at: Time)
    requires StartsRespectPauses(cfg, log) && PausesOver(cfg, log, at)
    ensures StartsRespectPauses(cfg, log + [Started(at)])
  {
    hide Demand;
  }

  lemma StartKeepsInv(cfg: Config, s: State, c: nat)
    requires Inv(cfg, s) && Enabled(s, Start(c))
    ensures Inv(cfg, Apply(cfg, s, Start(c)))
  {
    StepKeepsToken(cfg, s, Start(c));
    OthersDoNotHold(cfg, s, c);
    OneHolder(s, c, c);
    var t := Apply(cfg, s, Start(c));
    assert HolderOk(cfg, s, s.callers[c]);
    StartsStaySpread(cfg, s.log, s.now);
    hide Tokens, Demand, StartsRespectPauses, PausesOver, StoredBelow, Nondecreasing;
    assert t.log[..|t.log| - 1] == s.log;
    assert HolderOk(cfg, t, t.callers[c]);
  }

  lemma RespondKeepsInv(cfg: Config, s: State, c: nat, r: Response)
    requires Inv(cfg, s) && Enabled(s, Respond(c, r))
    ensures Inv(cfg, Apply(cfg, s, Respond(c, r)))
  {
    StepKeepsToken(cfg, s, Respond(c, r));
    OthersDoNotHold(cfg, s, c);
    OneHolder(s, c, c);
    var t := Apply(cfg, s, Respond(c, r));
    assert t.log[..|t.log| - 2] == s.log[..|s.log| - 1];
    assert HolderOk(cfg, t, t.callers[c]);
  }

  lemma ReleaseKeepsInv(cfg: Config, s: State, c: nat)
    requires Inv(cfg, s) && Enabled(s, Release(c))
    ensures Inv(cfg, Apply(cfg, s, Release(c)))
  {
    StepKeepsToken(cfg, s, Release(c));
    OthersDoNotHold(cfg, s, c);
    OneHolder(s, c, c);
    var t := Apply(cfg, s, Release(c));
    var n := |s.log|;
    forall i | 0 <= i < n ensures Demand(cfg, s.log[i]) <= t.slot.value {
      if i < n - 2 {
        assert s.log[..n - 2][i] == s.log[i];
      }
    }
  }

  lemma QueueKeepsInv(cfg: Config, s: State, step: Step)
    requires Inv(cfg, s) && Enabled(s, step) && (step.Tick? || step.Arrive? || step.GiveUpQueue?)
    ensures Inv(cfg, Apply(cfg, s, step))
  {
    StepKeepsToken(cfg, s, step);
    hide Tokens, Demand, StartsRespectPauses, Nondecreasing;
  }

  lemma StepKeepsInv(cfg: Config, s: State, step: Step)
    requires Inv(cfg, s) && Enabled(s, step)
    ensures Inv(cfg, Apply(cfg, s, step))
  {
    hide Inv, Apply;
    match step
    case Tick(_) | Arrive | GiveUpQueue(_) => QueueKeepsInv(cfg, s, step);
    case TakeTurn(c) => TakeKeepsInv(cfg, s, c);
    case Wake(_) | GiveUpPause(_) => PauseKeepsInv(cfg, s, step);
    case Start(c) => StartKeepsInv(cfg, s, c);
    case Respond(c, r) => RespondKeepsInv(cfg, s, c, r);
    case Release(c) => ReleaseKeepsInv(cfg, s, c);
  }

  lemma {:induction false} RunKeepsInv(cfg: Config, s: State, steps: seq<Step>)
    requires Inv(cfg, s) && CanRun(cfg, s, steps)
    ensures Inv(cfg, Run(cfg, s, steps))
    decreases |steps|
  {
    if steps != [] {
      StepKeepsInv(cfg, s, steps[0]);
      RunKeepsInv(cfg, Apply(cfg, s, steps[0]), steps[1..]);
    }
  }

  // ---------------------------------------------------------------- what every run promises

  ghost predicate Execution(cfg: Config, steps: seq<Step>) { CanRun(cfg, Initial(), steps) }

  ghost function After(cfg: Config, steps: seq<Step>): State
    requires Execution(cfg, steps)
  {
    Run(cfg, Initial(), steps)
  }

  lemma ReachableInv(cfg: Config, steps: seq<Step>)
    requires Execution(cfg, steps)
    ensures Inv(cfg, After(cfg, steps))
  {
    RunKeepsInv(cfg, Initial(), steps);
  }

  // Exactly one turn token exists, in the slot or with one caller, through success, failure
  // and cancelled waits; so whoever puts it back finds the slot empty and never blocks.
  lemma OneTokenAndNoBlocking(cfg: Config, steps: seq<Step>, next: Step)
    requires Execution(cfg, steps)
    ensures Tokens(After(cfg, steps)) == 1
    ensures Enabled(After(cfg, steps), next) && (next.Release? || next.GiveUpPause?) ==> After(cfg, steps).slot.None?
  {
    ReachableInv(cfg, steps);
    var s := After(cfg, steps);
    if Enabled(s, next) && (next.Release? || next.GiveUpPause?) {
      OneHolder(s, next.c, next.c);
    }
  }

  // The not-before times put into the slot never decrease.
  lemma StoredTimesNeverDecrease(cfg: Config, steps: seq<Step>)
    requires Execution(cfg, steps)
    ensures Nondecreasing(After(cfg, steps).stored)
    ensures var s := After(cfg, steps); s.slot.Some? ==> forall i :: 0 <= i < |s.stored| ==> s.stored[i] <= s.slot.value
  {
    ReachableInv(cfg, steps);
  }

  function StartTimes(log: seq<Event>): seq<Time>
  {
    if log == [] then []
    else
      var rest := StartTimes(log[..|log| - 1]);
      if log[|log| - 1].Started? then rest + [log[|log| - 1].at] else rest
  }

  lemma {:induction false} StartsSpread(cfg: Config, log: seq<Event>, i: nat, j: nat)
    requires StartsRespectPauses(cfg, log) && cfg.interval >= 0
    requires i <= j < |StartTimes(log)|
    ensures StartTimes(log)[j] - StartTimes(log)[i] >= (j - i) * cfg.interval
    decreases |log|
  {
    var last := |log| - 1;
    var rest := StartTimes(log[..last]);
    if j < |rest| {
      StartsSpread(cfg, log[..last], i, j);
    } else if i < j {
      StartsSpread(cfg, log[..last], i, j - 1);
      StartIsLogged(log[..last], j - 1);
      var k :| 0 <= k < last && log[..last][k] == Started(rest[j - 1]);
      assert Demand(cfg, log[k]) <= log[last].at;
      StepProduct(j - i, cfg.interval);
    }
  }

  lemma StepProduct(n: int, interval: int)
    ensures n * interval == (n - 1) * interval + interval
  {
  }

  lemma {:induction false} StartIsLogged(log: seq<Event>, j: nat)
    requires j < |StartTimes(log)|
    ensures exists k :: 0 <= k < |log| && log[k] == Started(StartTimes(log)[j])
  {
    var last := |log| - 1;
    if j < |StartTimes(log[..last])| {
      StartIsLogged(log[..last], j);
      var k :| 0 <= k < last && log[..last][k] == Started(StartTimes(log)[j]);
      assert log[k] == Started(StartTimes(log)[j]);
    } else {
      assert log[last] == Started(StartTimes(log)[j]);
    }
  }

  // Any n request starts of any run that fall within a window of length L satisfy
  // (n - 1) * interval <= L; here starts i to j, n = j - i + 1.
  lemma StartsInAnyWindow(cfg: Config, steps: seq<Step>, i: nat, j: nat, window: nat)
    requires Execution(cfg, steps)
    requires var starts := StartTimes(After(cfg, steps).log);
      i <= j < |starts| && starts[j] - starts[i] <= window
    ensures (j - i) * cfg.interval <= window
  {
    hide Execution, StartTimes, Demand, Nondecreasing, PausesOver;
    if cfg.interval >= 0 {
      ReachableInv(cfg, steps);
      StartsSpread(cfg, After(cfg, steps).log, i, j);
    } else {
      NotPositive(j - i, cfg.interval);
    }
  }

  lemma NotPositive(n: nat, interval: int)
    requires interval < 0
    ensures n * interval <= 0
  {
  }

  lemma {:induction false} LogGrows(cfg: Config, s: State, steps: seq<Step>)
    requires CanRun(cfg, s, steps)
    ensures s.log <= Run(cfg, s, steps).log
    decreases |steps|
  {
    if steps != [] {
      LogGrows(cfg, Apply(cfg, s, steps[0]), steps[1..]);
    }
  }

  // After a refused exchange no caller whatsoever starts before its end plus
  // min(Retry-After, cap), and after any exchange none before the regular interval is over.
  lemma PauseIsHonouredByEveryone(cfg: Config, steps: seq<Step>, c: nat, r: Response, more: seq<Step>, j: nat)
    requires Execution(cfg, steps) && Enabled(After(cfg, steps), Respond(c, r))
    requires CanRun(cfg, Apply(cfg, After(cfg, steps), Respond(c, r)), more)
    requires var log := Run(cfg, Apply(cfg, After(cfg, steps), Respond(c, r)), more).log;
      |After(cfg, steps).log| < j < |log| && log[j].Started?
    ensures var s := After(cfg, steps);
      var start := Run(cfg, Apply(cfg, s, Respond(c, r)), more).log[j].at;
      && start >= s.now + cfg.interval
      && (r.Refused? ==> start >= s.now + Min(WaitAsked(r.header, s.now), cfg.cap))
      && (r.Refused? && r.header.Seconds? && r.header.n >= 0 ==>
           start >= s.now + Min(r.header.n * 1_000_000_000, cfg.cap))
      && (r.Refused? && r.header.Date? ==> start >= Min(r.header.at, s.now + cfg.cap))
  {
    ReachableInv(cfg, steps);
    var s := After(cfg, steps);
    var t := Apply(cfg, s, Respond(c, r));
    StepKeepsInv(cfg, s, Respond(c, r));
    RunKeepsInv(cfg, t, more);
    LogGrows(cfg, t, more);
    var log := Run(cfg, t, more).log;
    var i := |s.log|;
    assert log[i] == t.log[i] == Ended(s.now, Backoff(r, s.now, cfg.cap));
    assert Demand(cfg, log[i]) <= log[j].at;
  }

  // The pause in nanoseconds that a response read at a time asks for, before any cap: seconds
  // that are not negative, or what is left until a date.
  predicate Asks(r: Response, now: Time, wait: nat)
  {
    match r
    case Refused(_, Seconds(n)) => wait == if n >= 0 then n * 1_000_000_000 else 0
    case Refused(_, Date(at)) => if at >= now then now + wait == at else wait == 0
    case _ => wait == 0
  }

  // The turn is put back with exactly the longer of the interval and the capped wait, counted
  // from its release, however much later than the response that is.
  lemma PauseIsWhatWasAsked(cfg: Config, steps: seq<Step>, c: nat, r: Response, d: nat, wait: nat)
    requires Execution(cfg, steps) && Enabled(After(cfg, steps), Respond(c, r))
    requires Asks(r, After(cfg, steps).now, wait)
    ensures var s := After(cfg, steps);
      var t := Apply(cfg, Apply(cfg, s, Respond(c, r)), Tick(d));
      && Enabled(t, Step.Release(c))
      && Apply(cfg, t, Step.Release(c)).slot == Some(s.now + d + Max(cfg.interval, Min(wait, cfg.cap)))
  {
    hide Execution, After;
  }

  // ---------------------------------------------------------------- how long two attempts take

  lemma OneMoreStep(cfg: Config, steps: seq<Step>, step: Step)
    requires Execution(cfg, steps) && Enabled(After(cfg, steps), step)
    ensures Execution(cfg, steps + [step]) && After(cfg, steps + [step]) == Apply(cfg, After(cfg, steps), step)
  {
    RunSnoc(cfg, Initial(), steps, step);
  }

  lemma {:induction false} RunSnoc(cfg: Config, s: State, steps: seq<Step>, step: Step)
    requires CanRun(cfg, s, steps) && Enabled(Run(cfg, s, steps), step)
    ensures CanRun(cfg, s, steps + [step]) && Run(cfg, s, steps + [step]) == Apply(cfg, Run(cfg, s, steps), step)
    decreases |steps|
  {
    if steps == [] {
      assert ([] + [step])[1..] == [];
    } else {
      RunSnoc(cfg, Apply(cfg, s, steps[0]), steps[1..], step);
      assert (steps + [step])[1..] == steps[1..] + [step];
    }
  }

  // One attempt that takes the turn at once and has no response after the timeout.
  lemma AttemptTimesOut(cfg: Config, before: seq<Step>, timeout: nat) returns (steps: seq<Step>)
    requires Execution(cfg, before) && cfg.interval > 0
    requires var s := After(cfg, before); s.slot.Some? && s.slot.value <= s.now
    ensures Execution(cfg, steps)
    ensures var s, t := After(cfg, before), After(cfg, steps);
      && t.now == s.now + timeout && t.slot == Some(t.now + cfg.interval)
      && t.log == s.log + [Started(s.now), Ended(t.now, 0)]
  {
    hide Execution, After;
    var c := |After(cfg, before).callers|;
    steps := before;
    OneMoreStep(cfg, steps, Arrive);
    steps := steps + [Arrive];
    OneMoreStep(cfg, steps, TakeTurn(c));
    steps := steps + [TakeTurn(c)];
    OneMoreStep(cfg, steps, Start(c));
    steps := steps + [Start(c)];
    OneMoreStep(cfg, steps, Tick(timeout));
    steps := steps + [Tick(timeout)];
    OneMoreStep(cfg, steps, Respond(c, NoResponse(ClientTimeout)));
    steps := steps + [Respond(c, NoResponse(ClientTimeout))];
    OneMoreStep(cfg, steps, Step.Release(c));
    steps := steps + [Step.Release(c)];
  }

  // On an idle client two attempts that time out take two timeouts and one pause, so a caller
  // with a longer deadline is still there when the second one ends.
  lemma TwoTimeoutsTake(cfg: Config, timeout: nat) returns (steps: seq<Step>)
    requires cfg.interval > 0
    ensures Execution(cfg, steps) && After(cfg, steps).now == 2 * timeout + cfg.interval
    ensures After(cfg, steps).log ==
            [Started(0), Ended(timeout, 0), Started(timeout + cfg.interval), Ended(2 * timeout + cfg.interval, 0)]
  {
    assert Execution(cfg, []) && After(cfg, []) == Initial();
    hide Execution, After;
    steps := AttemptTimesOut(cfg, [], timeout);
    OneMoreStep(cfg, steps, Tick(cfg.interval));
    steps := AttemptTimesOut(cfg, steps + [Tick(cfg.interval)], timeout);
  }

  // ---------------------------------------------------------------- the limiter object

  // The slot as the source keeps it; state is the whole system the caller acts in.
  class RateLimiter {
    const cfg: Config
    var slot: Option<Time>
    ghost var state: State

    ghost predicate Valid()
      reads this
    {
      Inv(cfg, state) && slot == state.slot
    }

    constructor (cfg: Config)
      ensures Valid() && this.cfg == cfg && state == Initial()
    {
      this.cfg := cfg;
      slot, state := Some(0), Initial();
      new;
      assert Tokens(state) == 1;
    }

    // acquire receives from the slot: true if the caller may start at once.
    method Take(ghost c: nat, now: Time) returns (notBefore: Time, immediately: bool)
      requires Valid() && now == state.now && Enabled(state, TakeTurn(c))
      modifies this
      ensures Valid() && state == Apply(cfg, old(state), TakeTurn(c))
      ensures state.callers[c] == if immediately then Ready(notBefore) else Pausing(notBefore)
    {
      StepKeepsInv(cfg, state, TakeTurn(c));
      notBefore := slot.value;
      slot := None;
      immediately := notBefore <= now;
      state := Apply(cfg, state, TakeTurn(c));
    }

    // acquire gives up during the pause: the pause still stands.
    method PutBack(ghost c: nat, notBefore: Time)
      requires Valid() && c < |state.callers| && state.callers[c] == Pausing(notBefore)
      modifies this
      ensures old(slot).None?
      ensures Valid() && state == Apply(cfg, old(state), GiveUpPause(c))
    {
      OneHolder(state, c, c);
      StepKeepsInv(cfg, state, GiveUpPause(c));
      slot := Some(notBefore);
      state := Apply(cfg, state, GiveUpPause(c));
    }

    method Release(ghost c: nat, now: Time, backoff: nat)
      requires Valid() && now == state.now
      requires c < |state.callers| && state.callers[c].Responded? && state.callers[c].backoff == backoff
      modifies this
      ensures old(slot).None?
      ensures Valid() && state == Apply(cfg, old(state), Step.Release(c))
    {
      OneHolder(state, c, c);
      StepKeepsInv(cfg, state, Step.Release(c));
      slot := Some(now + Max(cfg.interval, backoff));
      state := Apply(cfg, state, Step.Release(c));
    }
  }

  // ---------------------------------------------------------------- retries

  // retryable: a 503 or a network error, unless the caller has gone.
  predicate Retryable(r: Response, ctxEnded: bool)
  {
    !ctxEnded && (r.NoResponse? || (r.Refused? && r.status == 503))
  }

  // The exchange that counts, given how each attempt would end.
  function Exchanged(ends: nat -> Response, ctxEndsAfterFirst: bool): Response
  {
    if Retryable(ends(0), ctxEndsAfterFirst) then ends(1) else ends(0)
  }

  // getJSON: at most two attempts are made and the last one counts.
  method GetJson(ends: nat -> Response, ctxEndsAfterFirst: bool) returns (attempts: nat, r: Response)
    ensures 1 <= attempts <= 2 && r == ends(attempts - 1) == Exchanged(ends, ctxEndsAfterFirst)
    ensures attempts == 2 <==>
            !ctxEndsAfterFirst && (ends(0).NoResponse? || (ends(0).Refused? && ends(0).status == 503))
  {
    attempts, r := 1, ends(0);
    if Retryable(r, ctxEndsAfterFirst) {
      attempts, r := 2, ends(1);
    }
  }
}
