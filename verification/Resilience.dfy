/**
  The circuit breaker. A call is split at its await into the part that admits it and the part
  that records its outcome, so calls may overlap: several can be in flight, and one that
  started while the circuit was closed can finish after it opened.
 */
module Resilience {
  import opened Wrappers

  datatype CircuitState = Closed | Open | HalfOpen

  datatype Limits = Limits(threshold: int, resetTimeout: real)

  datatype Breaker = Breaker(state: CircuitState, failures: int, openedAt: Option<real>, probing: bool)

  const NEW_BREAKER := Breaker(Closed, 0, None, false)

  /** How a call was let through; a probe holds the half-open lock until it finishes. */
  datatype Admission = Rejected | Normal | Probe

  // ---------------------------------------------------------------------------
  // What the pieces of a call do
  // ---------------------------------------------------------------------------

  function HalfOpened(b: Breaker, limits: Limits, now: real): Breaker {
    if b.state == Open && b.openedAt.Some? && now - b.openedAt.value >= limits.resetTimeout then b.(state := HalfOpen)
    else b
  }

  function Admitted(b: Breaker, limits: Limits, now: real): (Breaker, Admission) {
    var b := HalfOpened(b, limits, now);
    match b.state
    case Open => (b, Rejected)
    case HalfOpen => if b.probing then (b, Rejected) else (b.(probing := true), Probe)
    case Closed => (b, Normal)
  }

  /** A call would be let through now: the circuit is closed, or its timeout has passed and no probe is under way. */
  predicate Admits(b: Breaker, limits: Limits, now: real) {
    match b.state
    case Closed => true
    case Open => b.openedAt.Some? && now - b.openedAt.value >= limits.resetTimeout && !b.probing
    case HalfOpen => !b.probing
  }

  lemma AdmitsWhen(b: Breaker, limits: Limits, now: real)
    ensures var (b', how) := Admitted(b, limits, now);
            && (how != Rejected <==> Admits(b, limits, now))
            && (how == Rejected ==> b' == HalfOpened(b, limits, now))
            && (how == Normal <==> b.state == Closed)
  {
  }

  function Failed(b: Breaker, limits: Limits, now: real): Breaker {
    if b.state == HalfOpen then b.(state := Open, openedAt := Some(now))
    else if b.failures + 1 >= limits.threshold then b.(failures := b.failures + 1, state := Open, openedAt := Some(now))
    else b.(failures := b.failures + 1)
  }

  function Succeeded(b: Breaker): Breaker {
    b.(state := Closed, failures := 0, openedAt := None)
  }

  function Finished(b: Breaker, limits: Limits, how: Admission, ok: bool, now: real): Breaker {
    var b := if ok then Succeeded(b) else Failed(b, limits, now);
    if how == Probe then b.(probing := false) else b
  }

  // ---------------------------------------------------------------------------
  // The object
  // ---------------------------------------------------------------------------

  class CircuitBreaker {
    const limits: Limits
    var state: CircuitState
    var failureCount: int
    var openedAt: Option<real>
    var halfOpenLock: bool

    function Value(): Breaker
      reads this
    {
      Breaker(state, failureCount, openedAt, halfOpenLock)
    }

    constructor (limits: Limits)
      ensures Value() == NEW_BREAKER && this.limits == limits
    {
      this.limits := limits;
      state, failureCount, openedAt, halfOpenLock := Closed, 0, None, false;
    }

    method MaybeTransitionHalfOpen(now: real)
      modifies this
      ensures Value() == HalfOpened(old(Value()), limits, now)
    {
      if state == Open && openedAt.Some? && now - openedAt.value >= limits.resetTimeout {
        state := HalfOpen;
      }
    }

    /** The part of a call before the wrapped coroutine runs. */
    method Admit(now: real) returns (how: Admission)
      modifies this
      ensures (Value(), how) == Admitted(old(Value()), limits, now)
    {
      MaybeTransitionHalfOpen(now);
      if state == Open {
        return Rejected;
      }
      if state == HalfOpen {
        if halfOpenLock {
          return Rejected;
        }
        halfOpenLock := true;
        return Probe;
      }
      return Normal;
    }

    /** The part of a call after the wrapped coroutine returned or raised. */
    method Finish(how: Admission, ok: bool, now: real)
      modifies this
      ensures Value() == Finished(old(Value()), limits, how, ok, now)
    {
      if ok {
        RecordSuccess();
      } else {
        RecordFailure(now);
      }
      if how == Probe {
        halfOpenLock := false;
      }
    }

    method RecordFailure(now: real)
      modifies this
      ensures Value() == Failed(old(Value()), limits, now)
    {
      if state == HalfOpen {
        state := Open;
        openedAt := Some(now);
      } else {
        failureCount := failureCount + 1;
        if failureCount >= limits.threshold {
          state := Open;
          openedAt := Some(now);
        }
      }
    }

    method RecordSuccess()
      modifies this
      ensures Value() == Succeeded(old(Value()))
    {
      state, failureCount, openedAt := Closed, 0, None;
    }
  }

  // ---------------------------------------------------------------------------
  // Overlapping calls
  // ---------------------------------------------------------------------------

  /** The breaker together with the clock and the calls in flight; `admitted` counts all calls ever let through. */
  datatype System = System(b: Breaker, now: real, normals: nat, probes: nat, admitted: nat)

  datatype BreakerEvent =
    | Tick(dt: real)
    | ReadState
    | Begin
    | FinishNormal(ok: bool)
    | FinishProbe(ok: bool)

  const START := System(NEW_BREAKER, 0.0, 0, 0, 0)

  predicate Enabled(s: System, e: BreakerEvent) {
    match e
    case Tick(dt) => dt >= 0.0
    case FinishNormal(_) => s.normals > 0
    case FinishProbe(_) => s.probes > 0
    case _ => true
  }

  function Next(s: System, limits: Limits, e: BreakerEvent): System
    requires Enabled(s, e)
  {
    match e
    case Tick(dt) => s.(now := s.now + dt)
    case ReadState => s.(b := HalfOpened(s.b, limits, s.now))
    case Begin =>
      var (b, how) := Admitted(s.b, limits, s.now);
      (match how
       case Rejected => s.(b := b)
       case Normal => s.(b := b, normals := s.normals + 1, admitted := s.admitted + 1)
       case Probe => s.(b := b, probes := s.probes + 1, admitted := s.admitted + 1))
    case FinishNormal(ok) => s.(b := Finished(s.b, limits, Normal, ok, s.now), normals := s.normals - 1)
    case FinishProbe(ok) => s.(b := Finished(s.b, limits, Probe, ok, s.now), probes := s.probes - 1)
  }

  predicate IsRun(s: System, limits: Limits, events: seq<BreakerEvent>)
    decreases |events|
  {
    events == [] || (Enabled(s, events[0]) && IsRun(Next(s, limits, events[0]), limits, events[1..]))
  }

  function After(s: System, limits: Limits, events: seq<BreakerEvent>): System
    requires IsRun(s, limits, events)
    decreases |events|
  {
    if events == [] then s else After(Next(s, limits, events[0]), limits, events[1..])
  }

  /** The states the breaker can be in, whatever calls overlap. */
  predicate Sound(s: System, limits: Limits) {
    && (s.b.state == Closed <==> s.b.openedAt.None?)
    && (s.b.state == Closed <==> s.b.failures < limits.threshold)
    && s.b.failures >= 0
    && (s.b.openedAt.Some? ==> s.b.openedAt.value <= s.now)
    && s.probes == (if s.b.probing then 1 else 0)
  }

  lemma SoundStep(s: System, limits: Limits, e: BreakerEvent)
    requires Sound(s, limits) && Enabled(s, e) && limits.threshold >= 1
    ensures Sound(Next(s, limits, e), limits)
  {
  }

  lemma {:induction false} SoundRun(s: System, limits: Limits, events: seq<BreakerEvent>)
    requires Sound(s, limits) && IsRun(s, limits, events) && limits.threshold >= 1
    ensures Sound(After(s, limits, events), limits)
    decreases |events|
  {
    if events != [] {
      SoundStep(s, limits, events[0]);
      SoundRun(Next(s, limits, events[0]), limits, events[1..]);
    }
  }

  /** Every reachable state is sound, for every interleaving, exactly when the threshold is positive. */
  lemma BreakerIsSound(limits: Limits)
    ensures limits.threshold >= 1
            <==> forall events :: IsRun(START, limits, events) ==> Sound(After(START, limits, events), limits)
  {
    if limits.threshold >= 1 {
      forall events | IsRun(START, limits, events)
        ensures Sound(After(START, limits, events), limits)
      {
        SoundRun(START, limits, events);
      }
    } else {
      assert IsRun(START, limits, []);
      assert !Sound(After(START, limits, []), limits);
    }
  }

  // ---------------------------------------------------------------------------
  // What opens a closed circuit
  // ---------------------------------------------------------------------------

  predicate EndsIn(e: BreakerEvent, ok: bool) {
    e == FinishNormal(ok) || e == FinishProbe(ok)
  }

  /** How many calls finished in failure since the last one that finished in success. */
  function FailuresInARow(events: seq<BreakerEvent>): nat {
    if events == [] then 0
    else
      var last, before := events[|events| - 1], events[..|events| - 1];
      if EndsIn(last, true) then 0
      else FailuresInARow(before) + if EndsIn(last, false) then 1 else 0
  }

  lemma {:induction false} RunSnoc(s: System, limits: Limits, events: seq<BreakerEvent>, e: BreakerEvent)
    requires IsRun(s, limits, events + [e])
    ensures IsRun(s, limits, events) && Enabled(After(s, limits, events), e)
    ensures After(s, limits, events + [e]) == Next(After(s, limits, events), limits, e)
    decreases |events|
  {
    var all := events + [e];
    if events == [] {
      assert all == [e] && all[1..] == [];
    } else {
      assert all[0] == events[0] && all[1..] == events[1..] + [e];
      RunSnoc(Next(s, limits, events[0]), limits, events[1..], e);
    }
  }

  lemma CountedStep(s: System, limits: Limits, e: BreakerEvent, n: int)
    requires Enabled(s, e) && (s.b.state == Closed ==> s.b.failures == n)
    ensures var s' := Next(s, limits, e);
            s'.b.state == Closed ==> s'.b.failures == if EndsIn(e, true) then 0 else if EndsIn(e, false) then n + 1 else n
  {
  }

  /** Whatever calls overlap: while the circuit is closed its count is that of the failures since the last success. */
  lemma {:induction false} CountsFailuresInARow(limits: Limits, events: seq<BreakerEvent>)
    requires IsRun(START, limits, events)
    ensures var b := After(START, limits, events).b;
            b.state == Closed ==> b.failures == FailuresInARow(events)
  {
    if events != [] {
      var n := |events| - 1;
      assert events == events[..n] + [events[n]];
      RunSnoc(START, limits, events[..n], events[n]);
      CountsFailuresInARow(limits, events[..n]);
      CountedStep(After(START, limits, events[..n]), limits, events[n], FailuresInARow(events[..n]));
    }
  }

  /**
    From closed, the circuit leaves that state only with a call that finishes in failure, and exactly when
    the failures since the last success reach the threshold; then it is open from that moment on, and
    otherwise every call is let through.
   */
  lemma OpensExactlyAt(limits: Limits, events: seq<BreakerEvent>, e: BreakerEvent)
    requires limits.threshold >= 1 && IsRun(START, limits, events + [e])
    ensures IsRun(START, limits, events)
    ensures var b, s' := After(START, limits, events).b, After(START, limits, events + [e]);
            b.state == Closed ==>
              && (s'.b.state != Closed <==> EndsIn(e, false) && FailuresInARow(events) + 1 >= limits.threshold)
              && (s'.b.state != Closed ==> s'.b.state == Open && s'.b.openedAt == Some(s'.now))
              && (s'.b.state == Closed ==> Admits(s'.b, limits, s'.now))
  {
    RunSnoc(START, limits, events, e);
    CountsFailuresInARow(limits, events);
    hide After, IsRun, FailuresInARow;
    var s := After(START, limits, events);
    LeavesClosed(s, limits, e);
  }

  lemma LeavesClosed(s: System, limits: Limits, e: BreakerEvent)
    requires Enabled(s, e)
    ensures var s' := Next(s, limits, e);
            s.b.state == Closed ==>
              && (s'.b.state != Closed <==> EndsIn(e, false) && s.b.failures + 1 >= limits.threshold)
              && (s'.b.state != Closed ==> s'.b.state == Open && s'.b.openedAt == Some(s'.now))
              && (s'.b.state == Closed ==> Admits(s'.b, limits, s'.now))
  {
  }

  /**
    What a finished call leaves. After a success, from whatever state, every call is let through and the
    count starts again. After a failure that leaves or finds the circuit other than closed in its place
    nothing is let through for the reset timeout, and then one call is, unless a probe is still out.
   */
  lemma FinishLeaves(b: Breaker, limits: Limits, how: Admission, ok: bool, now: real, t: real)
    requires how != Rejected && (how == Probe ==> b.probing)
    ensures var b' := Finished(b, limits, how, ok, now);
            && b'.probing == (b.probing && how != Probe)
            && (ok ==> b'.state == Closed && b'.failures == 0 && Admits(b', limits, t))
            && (!ok && (b.state == HalfOpen || b.failures + 1 >= limits.threshold) ==>
                  b'.state == Open && (Admits(b', limits, t) <==> t - now >= limits.resetTimeout && !b'.probing))
            && (!ok && b.state != HalfOpen && b.failures + 1 < limits.threshold ==> b'.state == b.state)
            && (!ok ==> b'.failures == if b.state == HalfOpen then b.failures else b.failures + 1)
  {
  }

  // ---------------------------------------------------------------------------
  // An open circuit stays quiet
  // ---------------------------------------------------------------------------

  predicate NoSuccess(events: seq<BreakerEvent>) {
    forall i | 0 <= i < |events| :: events[i] != FinishNormal(true) && events[i] != FinishProbe(true)
  }

  /**
    From the moment the circuit opens at `since`, no call is let through before the reset timeout
    has passed, however late the calls already in flight fail; only a success can end it sooner.
   */
  lemma {:induction false} QuietWhileOpen(s: System, limits: Limits, events: seq<BreakerEvent>, since: real)
    requires Sound(s, limits) && limits.threshold >= 1 && IsRun(s, limits, events)
    requires s.b.state == Open && s.b.openedAt.value >= since
    requires NoSuccess(events)
    requires After(s, limits, events).now < since + limits.resetTimeout
    ensures After(s, limits, events).b.state == Open
    ensures After(s, limits, events).admitted == s.admitted
    decreases |events|
  {
    if events != [] {
      var next := Next(s, limits, events[0]);
      SoundStep(s, limits, events[0]);
      assert events[0] != FinishNormal(true) && events[0] != FinishProbe(true);
      ClockRises(next, limits, events[1..]);
      QuietWhileOpen(next, limits, events[1..], since);
    }
  }

  lemma {:induction false} ClockRises(s: System, limits: Limits, events: seq<BreakerEvent>)
    requires IsRun(s, limits, events)
    ensures After(s, limits, events).now >= s.now
    decreases |events|
  {
    if events != [] {
      ClockRises(Next(s, limits, events[0]), limits, events[1..]);
    }
  }

  // ---------------------------------------------------------------------------
  // How often a dead backend is called
  // ---------------------------------------------------------------------------

  /** `n` periods of length `d`. */
  function Times(n: int, d: real): real {
    n as real * d
  }

  lemma OneMore(n: int, d: real)
    ensures Times(n + 1, d) == Times(n, d) + d
    ensures Times(0, d) == 0.0
    ensures n >= 0 && d >= 0.0 ==> Times(n, d) >= 0.0
  {
    assert (n + 1) as real * d == n as real * d + d;
  }

  /** One call made after the previous one ended: when it is attempted and, if admitted, when it fails. */
  datatype Attempt = Attempt(begin: real, end: real)

  /** What a caller sees of a backend that never answers: the breaker, the calls let through, and when it first opened. */
  datatype Outage = Outage(b: Breaker, invoked: nat, firstOpened: Option<real>)

  const OUTAGE_BEGINS := Outage(NEW_BREAKER, 0, None)

  function Suffer(o: Outage, limits: Limits, a: Attempt): Outage {
    var (b, how) := Admitted(o.b, limits, a.begin);
    if how == Rejected then o.(b := b)
    else
      var b := Finished(b, limits, how, false, a.end);
      Outage(b, o.invoked + 1, if o.firstOpened.None? && b.state == Open then Some(a.end) else o.firstOpened)
  }

  function SufferAll(o: Outage, limits: Limits, attempts: seq<Attempt>): Outage {
    if attempts == [] then o
    else Suffer(SufferAll(o, limits, attempts[..|attempts| - 1]), limits, attempts[|attempts| - 1])
  }

  /** Calls follow one another and take some time, all of it up to `t`. */
  predicate Sequential(attempts: seq<Attempt>, t: real)
  {
    attempts != [] ==>
      var last := attempts[|attempts| - 1];
      last.begin <= last.end <= t && Sequential(attempts[..|attempts| - 1], last.begin)
  }

  predicate OutageSound(o: Outage, limits: Limits, t: real) {
    && !o.b.probing
    && o.b.state != HalfOpen
    && (o.b.state == Closed <==> o.b.openedAt.None?)
    && (o.b.state == Closed <==> o.b.failures < limits.threshold)
    && (o.firstOpened.None? <==> o.b.openedAt.None?)
    && (o.firstOpened.None? ==> o.invoked == o.b.failures)
    && (o.firstOpened.Some? ==>
         && o.b.openedAt.value <= t
         && o.invoked >= limits.threshold
         && Times(o.invoked - limits.threshold, limits.resetTimeout) <= o.b.openedAt.value - o.firstOpened.value)
  }

  lemma SufferKeeps(o: Outage, limits: Limits, a: Attempt, t: real)
    requires limits.threshold >= 1 && OutageSound(o, limits, a.begin) && a.begin <= a.end <= t
    ensures OutageSound(Suffer(o, limits, a), limits, t)
  {
    hide Times;
    OneMore(o.invoked - limits.threshold, limits.resetTimeout);
  }

  lemma {:induction false} OutageStaysSound(limits: Limits, attempts: seq<Attempt>, t: real)
    requires limits.threshold >= 1 && Sequential(attempts, t)
    ensures OutageSound(SufferAll(OUTAGE_BEGINS, limits, attempts), limits, t)
  {
    if attempts != [] {
      var last := attempts[|attempts| - 1];
      OutageStaysSound(limits, attempts[..|attempts| - 1], last.begin);
      SufferKeeps(SufferAll(OUTAGE_BEGINS, limits, attempts[..|attempts| - 1]), limits, last, t);
    }
  }

  /**
    However often it is asked, the breaker calls a dead backend at most `threshold` times plus once
    per reset timeout since it first opened.
   */
  lemma RateBound(limits: Limits, attempts: seq<Attempt>, t: real)
    requires limits.threshold >= 1 && limits.resetTimeout > 0.0 && Sequential(attempts, t)
    ensures var o := SufferAll(OUTAGE_BEGINS, limits, attempts);
            o.invoked <= limits.threshold
              + if o.firstOpened.None? then 0 else ((t - o.firstOpened.value) / limits.resetTimeout).Floor
  {
    hide SufferAll;
    OutageStaysSound(limits, attempts, t);
    var o := SufferAll(OUTAGE_BEGINS, limits, attempts);
    if o.firstOpened.Some? {
      WholeTimes(o.invoked - limits.threshold, limits.resetTimeout, t - o.firstOpened.value);
    }
  }

  lemma WholeTimes(n: int, d: real, y: real)
    requires d > 0.0 && Times(n, d) <= y
    ensures n <= (y / d).Floor
  {
    DivideBound(n as real, d, y);
  }

  lemma DivideBound(x: real, d: real, y: real)
    requires d > 0.0 && x * d <= y
    ensures x <= y / d
  {
    assert (y / d) * d == y;
    if x > y / d {
      MulMonotone(y / d, x, d);
    }
  }

  lemma MulMonotone(x: real, y: real, d: real)
    requires d > 0.0 && x < y
    ensures x * d < y * d
  {
    assert y * d - x * d == (y - x) * d;
  }

  // ---------------------------------------------------------------------------
  // The bound is reached
  // ---------------------------------------------------------------------------

  /** A caller that fails at time 0 until the circuit opens and then asks again each time the timeout is over. */
  function Persistent(limits: Limits, n: nat): (attempts: seq<Attempt>)
    ensures |attempts| == n
  {
    if n == 0 then []
    else
      Persistent(limits, n - 1) + [Attempt(PersistentTime(limits, n), PersistentTime(limits, n))]
  }

  function PersistentTime(limits: Limits, n: nat): real {
    if n <= limits.threshold then 0.0 else Times(n - limits.threshold, limits.resetTimeout)
  }

  /** What `n` attempts of the persistent caller come to. */
  predicate KeptCalling(o: Outage, limits: Limits, n: nat) {
    && o.invoked == n
    && !o.b.probing
    && (n < limits.threshold ==> o.b == Breaker(Closed, n, None, false) && o.firstOpened.None?)
    && (n >= limits.threshold ==>
          o.b.state == Open && o.firstOpened == Some(0.0) && o.b.openedAt == Some(PersistentTime(limits, n)))
  }

  lemma OneMoreCall(o: Outage, limits: Limits, n: nat)
    requires limits.threshold >= 1 && limits.resetTimeout > 0.0 && KeptCalling(o, limits, n)
    ensures KeptCalling(Suffer(o, limits, Attempt(PersistentTime(limits, n + 1), PersistentTime(limits, n + 1))), limits, n + 1)
  {
    hide Times;
    OneMore(n - limits.threshold, limits.resetTimeout);
  }

  /** Every attempt of the persistent caller is let through: the bound cannot be lowered. */
  lemma {:induction false} RateBoundIsTight(limits: Limits, n: nat)
    requires limits.threshold >= 1 && limits.resetTimeout > 0.0
    ensures KeptCalling(SufferAll(OUTAGE_BEGINS, limits, Persistent(limits, n)), limits, n)
  {
    hide KeptCalling, Suffer, PersistentTime;
    if n == 0 {
      NothingCalledYet(limits);
    } else {
      RateBoundIsTight(limits, n - 1);
      OneMoreCall(SufferAll(OUTAGE_BEGINS, limits, Persistent(limits, n - 1)), limits, n - 1);
      assert Persistent(limits, n)[..n - 1] == Persistent(limits, n - 1);
    }
  }

  lemma NothingCalledYet(limits: Limits)
    requires limits.threshold >= 1
    ensures KeptCalling(OUTAGE_BEGINS, limits, 0)
  {
  }

  lemma {:induction false} PersistentIsSequential(limits: Limits, n: nat, t: real)
    requires limits.threshold >= 1 && limits.resetTimeout > 0.0
    requires t >= PersistentTime(limits, n)
    ensures Sequential(Persistent(limits, n), t)
  {
    hide Times;
    if n > 0 {
      OneMore(n - 1 - limits.threshold, limits.resetTimeout);
      PersistentIsSequential(limits, n - 1, PersistentTime(limits, n));
      assert Persistent(limits, n)[..n - 1] == Persistent(limits, n - 1);
    }
  }
}
