/**
  What holds in every run of the alerting workers: alerts go out at most once, a processed event
  has all its alerts out, no delivery is lost or settled twice, and no event falls between two
  workers.
 */
module AlertingSafety {
  import opened Wrappers
  import opened AlertingProtocol

  // ---------------------------------------------------------------------------
  // What has been sent
  // ---------------------------------------------------------------------------

  predicate Distinct<T(==)>(s: seq<T>) {
    forall i, j | 0 <= i < j < |s| :: s[i] != s[j]
  }

  /** The first `n` alerts of an event have reached the alert topic. */
  predicate Out(c: Config, sh: Shared, k: string, n: nat) {
    forall i | 0 <= i < n && i < |c.alerts(k)| :: c.alerts(k)[i] in sh.seenIds
  }

  predicate AllOut(c: Config, sh: Shared, k: string) {
    Out(c, sh, k, |c.alerts(k)|)
  }

  predicate EmittedOnce(sh: Shared) {
    Distinct(sh.emitted) && (set id | id in sh.emitted) == sh.seenIds
  }

  ghost predicate SentOk(c: Config, sh: Shared) {
    && EmittedOnce(sh)
    && sh.marked <= sh.seenIds
    && (forall k | k in sh.processed :: AllOut(c, sh, k))
  }

  /** How far a worker's current delivery has got. */
  predicate Progress(c: Config, sh: Shared, me: Worker) {
    match me.phase
    case Waiting => true
    case Checking(d) => d.valid
    case Claiming(d) => d.valid
    case Entering(d) => d.valid
    case Reading(d, n, i) => d.valid && 1 <= n <= c.Attempts() && i < |c.alerts(d.key)| && Out(c, sh, d.key, i)
    case Publishing(d, n, i) => d.valid && 1 <= n <= c.Attempts() && i < |c.alerts(d.key)| && Out(c, sh, d.key, i)
    case Marking(d, n, i) => d.valid && 1 <= n <= c.Attempts() && i < |c.alerts(d.key)| && Out(c, sh, d.key, i + 1)
    case Finishing(d, n) => d.valid && 1 <= n <= c.Attempts() && AllOut(c, sh, d.key)
    case Unlocking(d, ok) => d.valid && (ok ==> d.key in sh.processed)
    case Completing(d) => d.valid
    case DeadLettering(d) => true
  }

  /** Ids and markers are never taken back. */
  predicate Grows(sh: Shared, sh': Shared) {
    sh.seenIds <= sh'.seenIds && sh.marked <= sh'.marked && sh.processed <= sh'.processed
  }

  lemma StepGrows(c: Config, sh: Shared, w: nat, me: Worker, choice: Choice)
    ensures Grows(sh, WorkerStep(c, sh, w, me, choice).0)
  {
  }

  lemma OutGrows(c: Config, sh: Shared, sh': Shared, k: string, n: nat)
    requires Out(c, sh, k, n) && Grows(sh, sh')
    ensures Out(c, sh', k, n)
  {
  }

  lemma ProgressGrows(c: Config, sh: Shared, sh': Shared, me: Worker)
    requires Progress(c, sh, me) && Grows(sh, sh')
    ensures Progress(c, sh', me)
  {
  }

  lemma EmitOk(c: Config, sh: Shared, id: string)
    requires SentOk(c, sh)
    ensures SentOk(c, Emit(sh, id)) && id in Emit(sh, id).seenIds
  {
    var sh' := Emit(sh, id);
    forall k | k in sh'.processed
      ensures AllOut(c, sh', k)
    {
      assert AllOut(c, sh, k);
    }
  }

  lemma SameSent(c: Config, sh: Shared, sh': Shared)
    requires SentOk(c, sh) && sh'.seenIds == sh.seenIds && sh'.emitted == sh.emitted && sh'.processed == sh.processed
    requires sh'.marked <= sh.seenIds
    ensures SentOk(c, sh')
  {
    forall k | k in sh'.processed
      ensures AllOut(c, sh', k)
    {
      assert AllOut(c, sh, k);
    }
  }

  lemma OutNext(c: Config, sh: Shared, d: Delivery, i: nat)
    requires Out(c, sh, d.key, i) && i < |c.alerts(d.key)| && AlertId(c, d, i) in sh.seenIds
    ensures Out(c, sh, d.key, i + 1)
  {
  }

  lemma OutStart(c: Config, sh: Shared, k: string)
    ensures Out(c, sh, k, 0)
  {
  }

  lemma SentStep(c: Config, sh: Shared, w: nat, me: Worker, choice: Choice)
    requires SentOk(c, sh) && Progress(c, sh, me)
    ensures SentOk(c, WorkerStep(c, sh, w, me, choice).0)
  {
    var sh' := WorkerStep(c, sh, w, me, choice).0;
    match me.phase
    case Publishing(d, n, i) => EmitOk(c, sh, AlertId(c, d, i));
    case Marking(d, n, i) => SameSent(c, sh, sh');
    case Finishing(d, n) => ProcessedOk(c, sh, d.key);
    case _ => SameSent(c, sh, sh');
  }

  lemma ProcessedOk(c: Config, sh: Shared, k: string)
    requires SentOk(c, sh) && AllOut(c, sh, k)
    ensures SentOk(c, sh.(processed := sh.processed + {k}))
  {
    var sh' := sh.(processed := sh.processed + {k});
    forall j | j in sh'.processed
      ensures AllOut(c, sh', j)
    {
      assert j in sh.processed ==> AllOut(c, sh, j);
    }
  }

  lemma ProgressStep(c: Config, sh: Shared, w: nat, me: Worker, choice: Choice)
    requires SentOk(c, sh) && Progress(c, sh, me)
    ensures var (sh', me') := WorkerStep(c, sh, w, me, choice); Progress(c, sh', me')
  {
    var sh' := WorkerStep(c, sh, w, me, choice).0;
    StepGrows(c, sh, w, me, choice);
    hide SentOk, Out;
    match me.phase
    case Entering(d) => OutStart(c, sh', d.key);
    case Reading(d, n, i) =>
      OutStart(c, sh', d.key);
      MarkedIsSeen(c, sh, AlertId(c, d, i));
      if AlertId(c, d, i) in sh.marked {
        OutNext(c, sh', d, i);
      }
    case Publishing(d, n, i) =>
      OutStart(c, sh', d.key);
      OutGrows(c, sh, sh', d.key, i);
      if !choice.fails {
        OutNext(c, sh', d, i);
      }
    case Marking(d, n, i) =>
      OutStart(c, sh', d.key);
      OutGrows(c, sh, sh', d.key, i + 1);
    case Finishing(d, n) =>
      OutStart(c, sh', d.key);
    case _ =>
  }

  lemma MarkedIsSeen(c: Config, sh: Shared, id: string)
    requires SentOk(c, sh)
    ensures id in sh.marked ==> id in sh.seenIds
  {
  }

  // ---------------------------------------------------------------------------
  // Somebody is always in charge of an event
  // ---------------------------------------------------------------------------

  /** The event a worker is processing or about to dead-letter a delivery of. */
  function Tending(me: Worker): Option<string> {
    if me.phase.DeadLettering? then (if me.phase.d.valid then Some(me.phase.d.key) else None) else Critical(me)
  }

  predicate Dead(sh: Shared, k: string) {
    exists i | 0 <= i < |sh.dead| :: sh.dead[i].valid && sh.dead[i].key == k
  }

  predicate TendedBy(workers: seq<Worker>, w: nat, k: string) {
    w < |workers| && Tending(workers[w]) == Some(k)
  }

  /** The event was processed, or one of its deliveries was dead-lettered, or a worker is at it. */
  ghost predicate Cared(s: State, k: string) {
    k in s.shared.processed || Dead(s.shared, k) || exists w: nat :: TendedBy(s.workers, w, k)
  }

  /** A delivery that was completed, or is about to be, belongs to an event that is cared for. */
  ghost predicate CompletedOk(s: State) {
    && (forall i | 0 <= i < |s.shared.completed| :: Cared(s, s.shared.completed[i].key))
    && (forall w | 0 <= w < |s.workers| && s.workers[w].phase.Completing? :: Cared(s, s.workers[w].phase.d.key))
  }

  /** A worker stops tending an event only by leaving its processed marker or a dead letter behind. */
  lemma StepTends(c: Config, sh: Shared, w: nat, me: Worker, choice: Choice, k: string)
    requires Progress(c, sh, me) && Tending(me) == Some(k)
    ensures var (sh', me') := WorkerStep(c, sh, w, me, choice);
            k in sh'.processed || Dead(sh', k) || Tending(me') == Some(k)
  {
    hide Out, AllOut;
    var sh' := WorkerStep(c, sh, w, me, choice).0;
    if me.phase.DeadLettering? {
      assert sh'.dead[|sh.dead|] == me.phase.d;
    }
  }

  lemma StepBuries(c: Config, sh: Shared, w: nat, me: Worker, choice: Choice, k: string)
    requires Dead(sh, k)
    ensures Dead(WorkerStep(c, sh, w, me, choice).0, k)
  {
    var sh' := WorkerStep(c, sh, w, me, choice).0;
    var i :| 0 <= i < |sh.dead| && sh.dead[i].valid && sh.dead[i].key == k;
    assert sh'.dead[i] == sh.dead[i];
  }

  lemma CaredStep(c: Config, s: State, a: Action, k: string)
    requires Cared(s, k) && Enabled(s, a)
    requires a.Act? ==> Progress(c, s.shared, s.workers[a.w])
    ensures Cared(Next(c, s, a), k)
  {
    var s' := Next(c, s, a);
    if a.Act? {
      hide WorkerStep, Progress, Dead, Tending;
      StepGrows(c, s.shared, a.w, s.workers[a.w], a.choice);
      if Dead(s.shared, k) {
        StepBuries(c, s.shared, a.w, s.workers[a.w], a.choice, k);
      } else if k !in s.shared.processed {
        var w: nat :| TendedBy(s.workers, w, k);
        if w == a.w {
          StepTends(c, s.shared, w, s.workers[w], a.choice, k);
        }
        assert Tending(s'.workers[w]) == Some(k) ==> TendedBy(s'.workers, w, k);
      }
    } else {
      assert s'.workers == s.workers && s'.shared.dead == s.shared.dead;
    }
  }

  /** A worker about to complete a delivery leaves its event in good hands. */
  lemma CompletingIsCared(c: Config, s: State, w: nat, choice: Choice)
    requires LocksOk(s) && w < |s.workers| && Progress(c, s.shared, s.workers[w])
    requires !s.workers[w].phase.Completing?
    ensures var s' := Next(c, s, Act(w, choice));
            s'.workers[w].phase.Completing? ==> Cared(s', s'.workers[w].phase.d.key)
  {
    hide Out, AllOut, LocksOk;
    var s' := Next(c, s, Act(w, choice));
    var d := if s.workers[w].phase.Waiting? then Delivery(0, false, "") else s.workers[w].phase.d;
    if s.workers[w].phase.Claiming? && d.key in s.shared.locks {
      HolderTends(s, d.key);
      CaredStep(c, s, Act(w, choice), d.key);
    }
  }

  lemma HolderTends(s: State, k: string)
    requires LocksOk(s) && k in s.shared.locks
    ensures Cared(s, k)
  {
    assert LockAt(s.shared, s.workers, k);
    assert TendedBy(s.workers, s.shared.locks[k], k);
  }

  lemma CompletedStep(c: Config, s: State, a: Action)
    requires LocksOk(s) && CompletedOk(s) && Enabled(s, a)
    requires forall w | 0 <= w < |s.workers| :: Progress(c, s.shared, s.workers[w])
    ensures CompletedOk(Next(c, s, a))
  {
    hide LocksOk, Cared, Progress, WorkerStep;
    var s' := Next(c, s, a);
    if a.Act? {
      var me := s.workers[a.w];
      StepCompletes(c, s.shared, a.w, me, a.choice);
      forall i | 0 <= i < |s'.shared.completed|
        ensures Cared(s', s'.shared.completed[i].key)
      {
        if i < |s.shared.completed| {
          CaredStep(c, s, a, s.shared.completed[i].key);
        } else {
          CaredStep(c, s, a, me.phase.d.key);
        }
      }
      forall w | 0 <= w < |s'.workers| && s'.workers[w].phase.Completing?
        ensures Cared(s', s'.workers[w].phase.d.key)
      {
        if w != a.w {
          CaredStep(c, s, a, s.workers[w].phase.d.key);
        } else {
          CompletingIsCared(c, s, w, a.choice);
        }
      }
    } else {
      forall i | 0 <= i < |s'.shared.completed|
        ensures Cared(s', s'.shared.completed[i].key)
      {
        CaredStep(c, s, a, s.shared.completed[i].key);
      }
      forall w | 0 <= w < |s'.workers| && s'.workers[w].phase.Completing?
        ensures Cared(s', s'.workers[w].phase.d.key)
      {
        CaredStep(c, s, a, s.workers[w].phase.d.key);
      }
    }
  }

  lemma StepCompletes(c: Config, sh: Shared, w: nat, me: Worker, choice: Choice)
    ensures var (sh', me') := WorkerStep(c, sh, w, me, choice);
            && sh'.completed == sh.completed + (if me.phase.Completing? then [me.phase.d] else [])
            && (me.phase.Completing? ==> !me'.phase.Completing?)
  {
  }

  // ---------------------------------------------------------------------------
  // No delivery lost, none settled twice
  // ---------------------------------------------------------------------------

  function Current(me: Worker): seq<Delivery> {
    if me.phase.Waiting? then [] else [me.phase.d]
  }

  function Held(me: Worker): multiset<Delivery> {
    multiset(me.batch) + multiset(Current(me))
  }

  function HeldAll(workers: seq<Worker>): multiset<Delivery> {
    if workers == [] then multiset{} else HeldAll(workers[..|workers| - 1]) + Held(workers[|workers| - 1])
  }

  function Settled(sh: Shared): multiset<Delivery> {
    multiset(sh.completed) + multiset(sh.dead)
  }

  predicate Conserved(s: State) {
    multiset(s.arrived) == multiset(s.shared.queue) + HeldAll(s.workers) + Settled(s.shared)
  }

  lemma AlsoWith(a: multiset<Delivery>, x: multiset<Delivery>, b: multiset<Delivery>, y: multiset<Delivery>, l: multiset<Delivery>)
    requires a + x == b + y
    ensures (a + l) + x == (b + l) + y
    ensures (l + a) + x == (l + b) + y
  {
    assert (a + l) + x == (a + x) + l;
    assert (b + l) + y == (b + y) + l;
    assert l + a == a + l && l + b == b + l;
  }

  lemma {:induction false} HeldUpdate(workers: seq<Worker>, w: nat, me: Worker)
    requires w < |workers|
    ensures HeldAll(workers[w := me]) + Held(workers[w]) == HeldAll(workers) + Held(me)
  {
    hide Held;
    var n := |workers| - 1;
    var changed := workers[w := me];
    assert HeldAll(changed) == HeldAll(changed[..n]) + Held(changed[n]);
    if w < n {
      HeldUpdate(workers[..n], w, me);
      assert changed[..n] == workers[..n][w := me];
      AlsoWith(HeldAll(changed[..n]), Held(workers[w]), HeldAll(workers[..n]), Held(me), Held(workers[n]));
    } else {
      assert changed[..n] == workers[..n];
      assert Held(me) + Held(workers[n]) == Held(workers[n]) + Held(me);
      AlsoWith(Held(me), Held(workers[n]), Held(workers[n]), Held(me), HeldAll(workers[..n]));
    }
  }

  lemma Cut(q: seq<Delivery>, k: nat)
    requires k <= |q|
    ensures multiset(q) == multiset(q[..k]) + multiset(q[k..])
  {
    assert q == q[..k] + q[k..];
  }

  lemma PollMoves(sh: Shared, me: Worker, choice: Choice)
    requires me.phase.Waiting?
    ensures var (sh', me') := PollOrPick(sh, me, choice);
            && multiset(sh'.queue) + Held(me') == multiset(sh.queue) + Held(me)
            && sh'.completed == sh.completed && sh'.dead == sh.dead
  {
    if me.batch == [] {
      var k := if choice.count < |sh.queue| then choice.count else |sh.queue|;
      Cut(sh.queue, k);
    } else {
      assert me.batch == [me.batch[0]] + me.batch[1..];
    }
  }

  lemma SettlingMoves(sh: Shared, me: Worker)
    requires me.phase.Completing? || me.phase.DeadLettering?
    ensures var d := me.phase.d;
            var sh' := if me.phase.Completing? then sh.(completed := sh.completed + [d]) else sh.(dead := sh.dead + [d]);
            Held(me.(phase := Waiting)) + Settled(sh') == Held(me) + Settled(sh)
  {
  }

  /** Inside the processing of a delivery nothing moves. */
  lemma ProcessingMovesNothing(c: Config, sh: Shared, w: nat, me: Worker, choice: Choice)
    requires Undecided(me)
    ensures var (sh', me') := WorkerStep(c, sh, w, me, choice);
            && me'.batch == me.batch && !me'.phase.Waiting? && me'.phase.d == me.phase.d
            && sh'.queue == sh.queue && sh'.completed == sh.completed && sh'.dead == sh.dead
  {
  }

  lemma AlsoSettled(a: multiset<Delivery>, b: multiset<Delivery>, x: multiset<Delivery>, y: multiset<Delivery>)
    requires a == b && x == y
    ensures a + x == b + y
  {
  }

  lemma QueueFirst(q: multiset<Delivery>, a: multiset<Delivery>, x: multiset<Delivery>, b: multiset<Delivery>, y: multiset<Delivery>)
    requires a + x == b + y
    ensures q + a + x == q + b + y
  {
    assert q + a + x == q + (a + x);
    assert q + b + y == q + (b + y);
  }

  lemma StepMoves(c: Config, sh: Shared, w: nat, me: Worker, choice: Choice)
    ensures var (sh', me') := WorkerStep(c, sh, w, me, choice);
            multiset(sh'.queue) + Held(me') + Settled(sh') == multiset(sh.queue) + Held(me) + Settled(sh)
  {
    hide PollOrPick, Settled;
    var (sh', me') := WorkerStep(c, sh, w, me, choice);
    if me.phase.Waiting? {
      hide Held;
      PollMoves(sh, me, choice);
      SameSettled(sh, sh');
      AlsoSettled(multiset(sh'.queue) + Held(me'), multiset(sh.queue) + Held(me), Settled(sh'), Settled(sh));
    } else if Undecided(me) {
      hide WorkerStep;
      ProcessingMovesNothing(c, sh, w, me, choice);
      SameSettled(sh, sh');
      assert Current(me') == Current(me);
    } else {
      hide Held;
      SettlingMoves(sh, me);
      QueueFirst(multiset(sh.queue), Held(me'), Settled(sh'), Held(me), Settled(sh));
    }
  }

  /** From a law about one worker to a law about all of them. */
  lemma ReplaceOne(arrived: multiset<Delivery>, q: multiset<Delivery>, all: multiset<Delivery>, x: multiset<Delivery>, z: multiset<Delivery>,
                   q': multiset<Delivery>, all': multiset<Delivery>, x': multiset<Delivery>, z': multiset<Delivery>)
    requires arrived == q + all + z
    requires q' + x' + z' == q + x + z
    requires all' + x == all + x'
    ensures arrived == q' + all' + z'
  {
    forall d: Delivery
      ensures arrived[d] == (q' + all' + z')[d]
    {
      assert (q' + x' + z')[d] == (q + x + z)[d];
      assert (all' + x)[d] == (all + x')[d];
    }
  }

  lemma ConservedStep(c: Config, s: State, a: Action)
    requires Conserved(s) && Enabled(s, a)
    ensures Conserved(Next(c, s, a))
  {
    hide Held, HeldAll, Settled, WorkerStep;
    var s' := Next(c, s, a);
    if a.Act? {
      var me := s.workers[a.w];
      var (sh', me') := WorkerStep(c, s.shared, a.w, me, a.choice);
      StepMoves(c, s.shared, a.w, me, a.choice);
      HeldUpdate(s.workers, a.w, me');
      ReplaceOne(multiset(s.arrived), multiset(s.shared.queue), HeldAll(s.workers), Held(me), Settled(s.shared),
                 multiset(sh'.queue), HeldAll(s'.workers), Held(me'), Settled(sh'));
    } else {
      SameSettled(s.shared, s'.shared);
      assert multiset(s'.arrived) == multiset(s.arrived) + multiset{a.d};
      assert multiset(s'.shared.queue) == multiset(s.shared.queue) + multiset{a.d};
      ReplaceOne(multiset(s'.arrived), multiset{a.d} + multiset(s.shared.queue), HeldAll(s.workers), multiset{}, Settled(s.shared),
                 multiset(s'.shared.queue), HeldAll(s.workers), multiset{}, Settled(s'.shared));
    }
  }

  lemma SameSettled(sh: Shared, sh': Shared)
    requires sh'.completed == sh.completed && sh'.dead == sh.dead
    ensures Settled(sh') == Settled(sh)
  {
  }

  // ---------------------------------------------------------------------------
  // Counters
  // ---------------------------------------------------------------------------

  /** The worker has counted its current delivery as seen and not yet as processed, suppressed or dead-lettered. */
  predicate Undecided(me: Worker) {
    !me.phase.Waiting? && !me.phase.Completing? && !me.phase.DeadLettering?
  }

  predicate Balanced(me: Worker) {
    me.metrics.seen
    == me.metrics.processed + me.metrics.duplicates + me.metrics.deadLettered + (if Undecided(me) then 1 else 0)
  }

  lemma BalancedStep(c: Config, sh: Shared, w: nat, me: Worker, choice: Choice)
    requires Balanced(me)
    ensures Balanced(WorkerStep(c, sh, w, me, choice).1)
  {
  }

  // ---------------------------------------------------------------------------
  // Every run
  // ---------------------------------------------------------------------------

  ghost predicate Safe(c: Config, s: State) {
    && LocksOk(s)
    && SentOk(c, s.shared)
    && (forall w | 0 <= w < |s.workers| :: Progress(c, s.shared, s.workers[w]))
    && (forall w | 0 <= w < |s.workers| :: Balanced(s.workers[w]))
    && CompletedOk(s)
    && Conserved(s)
    && Distinct(s.arrived)
  }

  lemma {:induction false} NothingHeld(n: nat)
    ensures HeldAll(seq(n, _ => IDLE_WORKER)) == multiset{}
  {
    if n > 0 {
      NothingHeld(n - 1);
      assert seq(n, _ => IDLE_WORKER)[..n - 1] == seq(n - 1, _ => IDLE_WORKER);
    }
  }

  lemma SafeStart(c: Config, n: nat)
    ensures Safe(c, Start(n))
  {
    NothingHeld(n);
    assert Conserved(Start(n));
    assert SentOk(c, Start(n).shared);
    assert LocksOk(Start(n));
  }

  lemma SafeStep(c: Config, s: State, a: Action)
    requires Safe(c, s) && Enabled(s, a)
    ensures Safe(c, Next(c, s, a))
  {
    hide LocksOk, SentOk, Progress, Balanced, CompletedOk, Conserved, WorkerStep;
    var s' := Next(c, s, a);
    LocksStep(c, s, a);
    CompletedStep(c, s, a);
    ConservedStep(c, s, a);
    if a.Act? {
      var me := s.workers[a.w];
      SentStep(c, s.shared, a.w, me, a.choice);
      ProgressStep(c, s.shared, a.w, me, a.choice);
      BalancedStep(c, s.shared, a.w, me, a.choice);
      StepGrows(c, s.shared, a.w, me, a.choice);
      forall v | 0 <= v < |s'.workers|
        ensures Progress(c, s'.shared, s'.workers[v])
      {
        ProgressGrows(c, s.shared, s'.shared, s.workers[v]);
      }
    } else {
      ArrivalChangesLittle(c, s, a.d);
      forall v | 0 <= v < |s'.workers|
        ensures Progress(c, s'.shared, s'.workers[v])
      {
        ProgressGrows(c, s.shared, s'.shared, s.workers[v]);
      }
    }
  }

  lemma ArrivalChangesLittle(c: Config, s: State, d: Delivery)
    requires SentOk(c, s.shared) && Distinct(s.arrived) && d !in s.arrived
    ensures var s' := Next(c, s, Arrive(d));
            SentOk(c, s'.shared) && Grows(s.shared, s'.shared) && Distinct(s'.arrived)
  {
    SameSent(c, s.shared, Next(c, s, Arrive(d)).shared);
  }

  lemma {:induction false} SafeRun(c: Config, s: State, actions: seq<Action>)
    requires Safe(c, s) && IsRun(c, s, actions)
    ensures Safe(c, After(c, s, actions))
    decreases |actions|
  {
    hide Safe, Next;
    if actions != [] {
      SafeStep(c, s, actions[0]);
      SafeRun(c, Next(c, s, actions[0]), actions[1..]);
    }
  }

  /** No two workers are ever inside the processing of the same event. */
  lemma NoTwoInside(c: Config, n: nat, actions: seq<Action>, v: nat, w: nat)
    requires IsRun(c, Start(n), actions)
    ensures var s := After(c, Start(n), actions);
            (v < |s.workers| && w < |s.workers| && Critical(s.workers[v]).Some?
             && Critical(s.workers[v]) == Critical(s.workers[w])) ==> v == w
  {
    hide Start, LocksOk, CompletedOk, SentOk, Conserved;
    SafeStart(c, n);
    SafeRun(c, Start(n), actions);
    var s := After(c, Start(n), actions);
    if v < |s.workers| && w < |s.workers| && Critical(s.workers[v]).Some?
       && Critical(s.workers[v]) == Critical(s.workers[w]) {
      MutualExclusion(s, v, w);
    }
  }

  /** Whatever fails and however often, the alert topic accepts each alert at most once, and a processed event has all its alerts out. */
  lemma AlertsOnce(c: Config, n: nat, actions: seq<Action>)
    requires IsRun(c, Start(n), actions)
    ensures var sh := After(c, Start(n), actions).shared;
            && Distinct(sh.emitted)
            && (forall k, i | k in sh.processed && 0 <= i < |c.alerts(k)| :: c.alerts(k)[i] in sh.emitted)
  {
    hide Start, LocksOk, CompletedOk, Conserved;
    SafeStart(c, n);
    SafeRun(c, Start(n), actions);
    var sh := After(c, Start(n), actions).shared;
    forall k, i | k in sh.processed && 0 <= i < |c.alerts(k)|
      ensures c.alerts(k)[i] in sh.emitted
    {
      assert AllOut(c, sh, k);
      assert c.alerts(k)[i] in sh.seenIds;
    }
  }

  /**
    No event is lost: once no worker is at an event any more, a completed delivery of it means
    that all its alerts went out or that one of its deliveries is in the dead-letter queue.
   */
  lemma NoEventLost(c: Config, n: nat, actions: seq<Action>, d: Delivery)
    requires IsRun(c, Start(n), actions)
    ensures var s := After(c, Start(n), actions);
            d in s.shared.completed && (forall w: nat :: !TendedBy(s.workers, w, d.key)) ==>
              (d.key in s.shared.processed && forall i | 0 <= i < |c.alerts(d.key)| :: c.alerts(d.key)[i] in s.shared.emitted)
              || Dead(s.shared, d.key)
  {
    hide Start, LocksOk, SentOk, Conserved, Progress, Balanced;
    SafeStart(c, n);
    SafeRun(c, Start(n), actions);
    AlertsOnce(c, n, actions);
    var s := After(c, Start(n), actions);
    if d in s.shared.completed {
      var i :| 0 <= i < |s.shared.completed| && s.shared.completed[i] == d;
      assert Cared(s, s.shared.completed[i].key);
    }
  }

  /** Every message that arrived is in exactly one place, and each worker's counters add up. */
  lemma EachInOnePlace(c: Config, n: nat, actions: seq<Action>)
    requires IsRun(c, Start(n), actions)
    ensures var s := After(c, Start(n), actions);
            && Distinct(s.arrived)
            && multiset(s.arrived) == multiset(s.shared.queue) + HeldAll(s.workers)
                                      + multiset(s.shared.completed) + multiset(s.shared.dead)
            && (forall w | 0 <= w < |s.workers| :: Balanced(s.workers[w]))
  {
    hide Start, LocksOk, SentOk, CompletedOk, Progress, Balanced;
    SafeStart(c, n);
    SafeRun(c, Start(n), actions);
  }

  // ---------------------------------------------------------------------------
  // Every message is settled
  // ---------------------------------------------------------------------------

  /** Steps of one attempt at an event with `l` alerts. */
  function AttemptCost(l: nat): nat {
    3 * l + 1
  }

  /** What the attempts after number `n` can still cost. */
  function Later(c: Config, n: nat, l: nat): nat
    decreases c.Attempts() - n
  {
    if n < c.Attempts() then AttemptCost(l) + Later(c, n + 1, l) else 0
  }

  /** A bound on the steps a worker still needs to settle its current delivery. */
  function Work(c: Config, me: Worker): nat {
    match me.phase
    case Waiting => 0
    case Checking(d) => 6 + 3 * |c.alerts(d.key)| + Later(c, 1, |c.alerts(d.key)|)
    case Claiming(d) => 5 + 3 * |c.alerts(d.key)| + Later(c, 1, |c.alerts(d.key)|)
    case Entering(d) => 4 + 3 * |c.alerts(d.key)| + Later(c, 1, |c.alerts(d.key)|)
    case Reading(d, n, i) => 3 + 3 * Left(c, d, i) + Later(c, n, |c.alerts(d.key)|)
    case Publishing(d, n, i) => 2 + 3 * Left(c, d, i) + Later(c, n, |c.alerts(d.key)|)
    case Marking(d, n, i) => 1 + 3 * Left(c, d, i) + Later(c, n, |c.alerts(d.key)|)
    case Finishing(d, n) => 3 + Later(c, n, |c.alerts(d.key)|)
    case Unlocking(_, _) => 2
    case Completing(_) => 1
    case DeadLettering(_) => 1
  }

  function Left(c: Config, d: Delivery, i: nat): nat {
    if i < |c.alerts(d.key)| then |c.alerts(d.key)| - i else 0
  }

  /** Each step of a busy worker brings the end of its current delivery closer, failures included. */
  lemma WorkFalls(c: Config, sh: Shared, w: nat, me: Worker, choice: Choice)
    requires Progress(c, sh, me) && !me.phase.Waiting?
    ensures var (sh', me') := WorkerStep(c, sh, w, me, choice);
            && Work(c, me') < Work(c, me)
            && (me'.phase.Waiting? ==> me.phase.d in sh'.completed || me.phase.d in sh'.dead)
            && (!me'.phase.Waiting? ==> me'.phase.d == me.phase.d)
  {
    hide Out, AllOut;
  }

  /** How many of the actions are steps of worker `w`. */
  function StepsOf(actions: seq<Action>, w: nat): nat
    decreases |actions|
  {
    if actions == [] then 0
    else (if actions[0].Act? && actions[0].w == w then 1 else 0) + StepsOf(actions[1..], w)
  }

  predicate IsSettled(sh: Shared, d: Delivery) {
    d in sh.completed || d in sh.dead
  }

  lemma SettledStays(c: Config, s: State, a: Action, d: Delivery)
    requires IsSettled(s.shared, d) && Enabled(s, a)
    ensures IsSettled(Next(c, s, a).shared, d)
  {
    var sh' := Next(c, s, a).shared;
    assert s.shared.completed <= sh'.completed && s.shared.dead <= sh'.dead;
  }

  lemma {:induction false} SettledStaysLong(c: Config, s: State, actions: seq<Action>, d: Delivery)
    requires IsSettled(s.shared, d) && IsRun(c, s, actions)
    ensures IsSettled(After(c, s, actions).shared, d)
    decreases |actions|
  {
    hide Next, IsSettled;
    if actions != [] {
      SettledStays(c, s, actions[0], d);
      SettledStaysLong(c, Next(c, s, actions[0]), actions[1..], d);
    }
  }

  /** What one action leaves of worker `w`'s current delivery. */
  lemma ActionOnDelivery(c: Config, s: State, a: Action, w: nat)
    requires Safe(c, s) && Enabled(s, a) && w < |s.workers| && !s.workers[w].phase.Waiting?
    ensures var s' := Next(c, s, a);
            var me, me' := s.workers[w], s'.workers[w];
            if me'.phase.Waiting? then IsSettled(s'.shared, me.phase.d)
            else me'.phase.d == me.phase.d && Work(c, me') + StepsOf([a], w) <= Work(c, me)
  {
    hide LocksOk, SentOk, CompletedOk, Conserved, Progress, Work, WorkerStep;
    if a.Act? && a.w == w {
      WorkFalls(c, s.shared, w, s.workers[w], a.choice);
    }
  }

  /** However many operations fail, a delivery is settled once its worker has made the steps `Work` allows. */
  lemma {:induction false} SettledInTime(c: Config, s: State, actions: seq<Action>, w: nat)
    requires Safe(c, s) && IsRun(c, s, actions) && w < |s.workers| && !s.workers[w].phase.Waiting?
    requires StepsOf(actions, w) >= Work(c, s.workers[w])
    ensures IsSettled(After(c, s, actions).shared, s.workers[w].phase.d)
    decreases |actions|
  {
    hide Safe, Work, Next, IsSettled;
    WorkIsPositive(c, s.workers[w]);
    if actions != [] {
      var next := Next(c, s, actions[0]);
      SafeStep(c, s, actions[0]);
      SameWorkers(c, s, actions[0]);
      ActionOnDelivery(c, s, actions[0], w);
      assert StepsOf([actions[0]], w) + StepsOf(actions[1..], w) == StepsOf(actions, w) by {
        assert [actions[0]][1..] == [];
      }
      if next.workers[w].phase.Waiting? {
        SettledStaysLong(c, next, actions[1..], s.workers[w].phase.d);
      } else {
        SettledInTime(c, next, actions[1..], w);
      }
    }
  }

  lemma SameWorkers(c: Config, s: State, a: Action)
    requires Enabled(s, a)
    ensures |Next(c, s, a).workers| == |s.workers|
  {
  }

  lemma WorkIsPositive(c: Config, me: Worker)
    ensures !me.phase.Waiting? ==> Work(c, me) > 0
  {
  }

  lemma {:induction false} LaterAttempts(c: Config, n: nat, l: nat)
    requires n <= c.Attempts()
    ensures Later(c, n, l) == (c.Attempts() - n) * AttemptCost(l)
    decreases c.Attempts() - n
  {
    hide AttemptCost;
    if n < c.Attempts() {
      LaterAttempts(c, n + 1, l);
      assert (c.Attempts() - n) * AttemptCost(l) == AttemptCost(l) + (c.Attempts() - (n + 1)) * AttemptCost(l);
    }
  }

  /** From the moment it is picked up, a message of an event with `l` alerts takes at most this many awaits. */
  lemma WorkAtStart(c: Config, me: Worker)
    requires me.phase.Checking?
    ensures var l := |c.alerts(me.phase.d.key)|;
            Work(c, me) == 5 + c.Attempts() * AttemptCost(l)
  {
    var l := |c.alerts(me.phase.d.key)|;
    LaterAttempts(c, 1, l);
    assert c.Attempts() * AttemptCost(l) == AttemptCost(l) + (c.Attempts() - 1) * AttemptCost(l);
  }
}
