// How both caches reach their store (internal/cache/core.go): after an error the store is left
// alone for a cooldown, and the log says when an outage begins and ends.
module CacheCore {
  import opened Collections

  // Unix nanoseconds of a clock after 1970, so a window's end is never the zero that means
  // a healthy store.
  type Time = nat

  // ---------------------------------------------------------------- the atomic swaps

  // The window value with the two log lines it drives.
  datatype Window = Window(until: Time, warnings: nat, recoveries: nat)

  datatype Swap = FailAt(now: Time) | Recover

  function ApplySwap(cooldown: Time, w: Window, s: Swap): Window
  {
    match s
    case FailAt(now) => Window(now + cooldown, w.warnings + if w.until == 0 then 1 else 0, w.recoveries)
    case Recover => Window(0, w.warnings, w.recoveries + if w.until != 0 then 1 else 0)
  }

  function Swaps(cooldown: Time): (Window, Swap) -> Window { (w: Window, s: Swap) => ApplySwap(cooldown, w, s) }

  predicate Balanced(w: Window) { w.warnings == w.recoveries + if w.until != 0 then 1 else 0 }

  // Under every interleaving of the swaps, outage warnings minus recoveries is 0 or 1, and
  // 1 exactly while the window value is not zero.
  lemma {:induction false} OutageLogIsBalanced(cooldown: Time, swaps: seq<Swap>)
    requires cooldown > 0
    ensures Balanced(Fold(Swaps(cooldown), Window(0, 0, 0), swaps))
  {
    if swaps != [] {
      OutageLogIsBalanced(cooldown, swaps[..|swaps| - 1]);
    }
  }

  // ---------------------------------------------------------------- operations

  datatype Outcome<+T> = Got(value: Option<T>) | StoreError

  // One get or set: the clock as bypassed and fail read it, what the store would answer, and
  // whether the caller's own context has ended by then.
  datatype Op<+T> =
    | GetOp(start: Time, end: Time, outcome: Outcome<T>, ctxEnded: bool)
    | SetOp(start: Time, end: Time, ttl: int, fails: bool, ctxEnded: bool)

  predicate Bypassed(w: Window, now: Time) { w.until != 0 && now < w.until }

  predicate Skips<T>(w: Window, op: Op<T>) { (op.SetOp? && op.ttl <= 0) || Bypassed(w, op.start) }

  predicate RecordsError<T>(w: Window, op: Op<T>)
  {
    && !Skips(w, op) && !op.ctxEnded
    && match op
       case GetOp(_, _, outcome, _) => outcome.StoreError?
       case SetOp(_, _, _, fails, _) => fails
  }

  // The window after an operation that meets no other.
  function Perform<T>(cooldown: Time, w: Window, op: Op<T>): Window
  {
    if RecordsError(w, op) then ApplySwap(cooldown, w, FailAt(op.end))
    else if !Skips(w, op) && op.GetOp? && op.outcome.Got? then ApplySwap(cooldown, w, Recover)
    else w
  }

  class Core<T(==)> {
    const cooldown: Time
    var window: Window
    var errors: nat     // cache_errors_total

    ghost predicate Valid()
      reads this
    {
      cooldown > 0 && Balanced(window)
    }

    constructor (cooldown: Time)
      requires cooldown > 0
      ensures Valid() && this.cooldown == cooldown && window == Window(0, 0, 0) && errors == 0
    {
      this.cooldown, window, errors := cooldown, Window(0, 0, 0), 0;
    }

    method Fail(now: Time, ctxEnded: bool)
      requires Valid()
      modifies this
      ensures Valid()
      ensures window == if ctxEnded then old(window) else ApplySwap(cooldown, old(window), FailAt(now))
      ensures errors == old(errors) + if ctxEnded then 0 else 1
    {
      if ctxEnded {
        return;
      }
      errors := errors + 1;
      var was := window.until;
      window := window.(until := now + cooldown);
      if was == 0 {
        window := window.(warnings := window.warnings + 1);
      }
    }

    method Recovered()
      requires Valid()
      modifies this
      ensures Valid() && window == ApplySwap(cooldown, old(window), Recover) && errors == old(errors)
    {
      var was := window.until;
      window := window.(until := 0);
      if was != 0 {
        window := window.(recoveries := window.recoveries + 1);
      }
    }

    // A miss, a store error and a bypassed store look the same to the caller. Once the window
    // is over the store is asked, and an answer closes it; until then it is left alone.
    method Get(start: Time, end: Time, outcome: Outcome<T>, ctxEnded: bool) returns (found: Option<T>)
      requires Valid()
      modifies this
      ensures Valid() && window == Perform(cooldown, old(window), GetOp(start, end, outcome, ctxEnded))
      ensures errors == old(errors) + if RecordsError(old(window), GetOp(start, end, outcome, ctxEnded)) then 1 else 0
      ensures found == if Bypassed(old(window), start) || outcome.StoreError? then None else outcome.value
      ensures old(window).until <= start && outcome.Got? ==> found == outcome.value && window.until == 0
      ensures start < old(window).until ==> found == None && window == old(window) && errors == old(errors)
      ensures old(window).until <= start && outcome.StoreError? && !ctxEnded ==>
                window.until == end + cooldown && errors == old(errors) + 1
    {
      if Bypassed(window, start) {
        return None;
      }
      if outcome.StoreError? {
        Fail(end, ctxEnded);
        return None;
      }
      Recovered();
      return outcome.value;
    }

    // True if the value reached the store.
    method Set(start: Time, end: Time, ttl: int, fails: bool, ctxEnded: bool) returns (stored: bool)
      requires Valid()
      modifies this
      ensures Valid()
      ensures window == Perform<T>(cooldown, old(window), SetOp(start, end, ttl, fails, ctxEnded))
      ensures
        errors == old(errors) + if RecordsError<T>(old(window), SetOp(start, end, ttl, fails, ctxEnded)) then 1 else 0
      ensures stored <==> ttl > 0 && old(window).until <= start && !fails
      ensures start < old(window).until || ttl <= 0 ==> window == old(window) && errors == old(errors)
      ensures old(window).until <= start && ttl > 0 && fails && !ctxEnded ==>
                window.until == end + cooldown && errors == old(errors) + 1
    {
      if ttl <= 0 || Bypassed(window, start) {
        return false;
      }
      if fails {
        Fail(end, ctxEnded);
      }
      return !fails;
    }
  }

  // ---------------------------------------------------------------- sequential runs

  // The clock runs forward through operations that follow one another.
  ghost predicate OneAfterAnother<T>(ops: seq<Op<T>>)
  {
    && (forall i :: 0 <= i < |ops| ==> ops[i].start <= ops[i].end)
    && (forall i, j :: 0 <= i < j < |ops| ==> ops[i].end <= ops[j].start)
  }

  function After<T>(cooldown: Time, ops: seq<Op<T>>): Window
  {
    if ops == [] then Window(0, 0, 0) else Perform(cooldown, After(cooldown, ops[..|ops| - 1]), ops[|ops| - 1])
  }

  // When the store errors were recorded.
  function ErrorTimes<T>(cooldown: Time, ops: seq<Op<T>>): seq<Time>
  {
    if ops == [] then [] else
      var rest := ErrorTimes(cooldown, ops[..|ops| - 1]);
      var op := ops[|ops| - 1];
      if RecordsError(After(cooldown, ops[..|ops| - 1]), op) then rest + [op.end] else rest
  }

  // The window covers the cooldown after the last error, or that cooldown is over.
  ghost predicate CoversLast<T>(cooldown: Time, ops: seq<Op<T>>)
  {
    var errors, w := ErrorTimes(cooldown, ops), After(cooldown, ops);
    if errors == [] then w.until == 0
    else
      var last := errors[|errors| - 1];
      w.until == last + cooldown || (w.until == 0 && ops != [] && last + cooldown <= ops[|ops| - 1].end)
  }

  lemma {:induction false} WindowCoversLast<T(!new)>(cooldown: Time, ops: seq<Op<T>>)
    requires cooldown > 0 && OneAfterAnother(ops)
    ensures CoversLast(cooldown, ops)
  {
    if ops != [] {
      WindowCoversLast(cooldown, ops[..|ops| - 1]);
    }
  }

  // An error is recorded exactly for an operation that starts outside the window, has something
  // to do, fails, and whose caller is still there.
  lemma RecordedErrors<T(!new)>(w: Window, op: Op<T>)
    ensures RecordsError(w, op) <==>
            && w.until <= op.start && !op.ctxEnded
            && (if op.GetOp? then op.outcome.StoreError? else op.ttl > 0 && op.fails)
  {
  }

  // An error that is recorded after another one comes a cooldown later.
  lemma NextErrorIsLater<T(!new)>(cooldown: Time, front: seq<Op<T>>, op: Op<T>, last: Time)
    requires cooldown > 0 && OneAfterAnother(front) && op.start <= op.end
    requires forall i :: 0 <= i < |front| ==> front[i].end <= op.start
    requires var errors := ErrorTimes(cooldown, front); errors != [] && errors[|errors| - 1] == last
    requires RecordsError(After(cooldown, front), op)
    ensures op.end >= last + cooldown
  {
    WindowCoversLast(cooldown, front);
    RecordedErrors(After(cooldown, front), op);
    hide ErrorTimes, After, RecordsError, OneAfterAnother;
  }

  lemma ErrorsOfFront<T(!new)>(cooldown: Time, ops: seq<Op<T>>, front: seq<Op<T>>)
    requires ops != [] && front == ops[..|ops| - 1]
    ensures ErrorTimes(cooldown, front) <= ErrorTimes(cooldown, ops)
    ensures |ErrorTimes(cooldown, ops)| <= |ErrorTimes(cooldown, front)| + 1
    ensures |ErrorTimes(cooldown, ops)| > |ErrorTimes(cooldown, front)| ==>
              && RecordsError(After(cooldown, front), ops[|ops| - 1])
              && ErrorTimes(cooldown, ops)[|ErrorTimes(cooldown, front)|] == ops[|ops| - 1].end
  {
  }

  function Cooldowns(n: int, cooldown: Time): int { n * cooldown }

  lemma {:induction false} ErrorsSpread<T(!new)>(cooldown: Time, ops: seq<Op<T>>, i: nat, j: nat)
    requires cooldown > 0 && OneAfterAnother(ops)
    requires i <= j < |ErrorTimes(cooldown, ops)|
    ensures ErrorTimes(cooldown, ops)[j] - ErrorTimes(cooldown, ops)[i] >= Cooldowns(j - i, cooldown)
    decreases |ops|
  {
    hide Cooldowns;
    OneMoreCooldown(j - i, cooldown);
    if i < j {
      var front := ops[..|ops| - 1];
      ErrorsOfFront(cooldown, ops, front);
      var op := ops[|ops| - 1];
      assert OneAfterAnother(front) && op.start <= op.end;
      assert forall k :: 0 <= k < |front| ==> front[k].end <= op.start;
      hide ErrorTimes, OneAfterAnother, RecordsError, After;
      if j < |ErrorTimes(cooldown, front)| {
        ErrorsSpread(cooldown, front, i, j);
      } else {
        NextErrorIsLater(cooldown, front, op, ErrorTimes(cooldown, front)[j - 1]);
        ErrorsSpread(cooldown, front, i, j - 1);
      }
    }
  }

  lemma OneMoreCooldown(n: int, cooldown: Time)
    ensures Cooldowns(n, cooldown) == Cooldowns(n - 1, cooldown) + cooldown
    ensures Cooldowns(0, cooldown) == 0
  {
  }

  // The store is not given up: an operation that starts at or after the last recorded error plus
  // the cooldown reaches it. Its answer to a get closes the window, its next error is recorded.
  lemma StoreIsAskedAgain<T(!new)>(cooldown: Time, ops: seq<Op<T>>, op: Op<T>)
    requires cooldown > 0 && OneAfterAnother(ops)
    requires forall i :: 0 <= i < |ops| ==> ops[i].end <= op.start
    requires var errors := ErrorTimes(cooldown, ops); errors == [] || errors[|errors| - 1] + cooldown <= op.start
    ensures After(cooldown, ops).until <= op.start
    ensures op.GetOp? && op.outcome.Got? ==> After(cooldown, ops + [op]).until == 0
    ensures !op.ctxEnded && (if op.GetOp? then op.outcome.StoreError? else op.ttl > 0 && op.fails) ==>
              && ErrorTimes(cooldown, ops + [op]) == ErrorTimes(cooldown, ops) + [op.end]
              && After(cooldown, ops + [op]).until == op.end + cooldown
  {
    WindowCoversLast(cooldown, ops);
    assert (ops + [op])[..|ops|] == ops;
  }

  // For operations run one after another, n recorded store errors within a span L satisfy
  // (n - 1) * Cooldown <= L: a broken store costs one timeout per cooldown. Here n = j - i + 1.
  lemma ErrorsInAnySpan<T(!new)>(cooldown: Time, ops: seq<Op<T>>, i: nat, j: nat, span: nat)
    requires cooldown > 0 && OneAfterAnother(ops)
    requires i <= j < |ErrorTimes(cooldown, ops)|
    requires ErrorTimes(cooldown, ops)[j] - ErrorTimes(cooldown, ops)[i] <= span
    ensures (j - i) * cooldown <= span
  {
    ErrorsSpread(cooldown, ops, i, j);
  }
}
