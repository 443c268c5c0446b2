/**
  Several alerting workers sharing one bus and one cache. Every await is a step, steps of
  different workers interleave freely, and any operation inside the retried part may fail,
  before or after it took effect. Locks and markers do not expire here.
 */
module AlertingProtocol {
  import opened Wrappers

  /** A message handed out by the bus: its sequence number, whether its payload is valid, and the event it is about. */
  datatype Delivery = Delivery(uid: nat, valid: bool, key: string)

  /** The alerts each event gives rise to, by dedupe key, and the attempts allowed (at least one). */
  datatype Config = Config(alerts: string -> seq<string>, maxAttempts: int)
  {
    function Attempts(): (n: nat)
      ensures n >= 1
    {
      if maxAttempts > 1 then maxAttempts else 1
    }
  }

  /** Where a worker is: each phase names the await it is about to make. */
  datatype Phase =
    | Waiting
    | Checking(d: Delivery)
    | Claiming(d: Delivery)
    | Entering(d: Delivery)
    | Reading(d: Delivery, n: nat, i: nat)
    | Publishing(d: Delivery, n: nat, i: nat)
    | Marking(d: Delivery, n: nat, i: nat)
    | Finishing(d: Delivery, n: nat)
    | Unlocking(d: Delivery, ok: bool)
    | Completing(d: Delivery)
    | DeadLettering(d: Delivery)

  datatype Metrics = Metrics(
    seen: nat, processed: nat, duplicates: nat, published: nat, retries: nat, refused: nat, deadLettered: nat)

  datatype Worker = Worker(batch: seq<Delivery>, phase: Phase, metrics: Metrics)

  /**
    What the workers share. `locks` also notes who took each lock, which no worker reads;
    `emitted` are the alert ids the bus accepted, in order.
   */
  datatype Shared = Shared(
    queue: seq<Delivery>, processed: set<string>, locks: map<string, nat>, marked: set<string>,
    seenIds: set<string>, emitted: seq<string>, completed: seq<Delivery>, dead: seq<Delivery>)

  datatype State = State(arrived: seq<Delivery>, shared: Shared, workers: seq<Worker>)

  /** How a step goes: how much a receive returns, whether the operation fails, and whether a failed write took effect. */
  datatype Choice = Choice(count: nat, fails: bool, tookEffect: bool)

  datatype Action = Arrive(d: Delivery) | Act(w: nat, choice: Choice)

  // ---------------------------------------------------------------------------
  // Steps
  // ---------------------------------------------------------------------------

  function NextAlert(c: Config, d: Delivery, n: nat, i: nat): Phase {
    if i < |c.alerts(d.key)| then Reading(d, n, i) else Finishing(d, n)
  }

  function Retried(c: Config, me: Worker, d: Delivery, n: nat): Worker {
    if n < c.Attempts() then
      me.(phase := NextAlert(c, d, n + 1, 0), metrics := me.metrics.(retries := me.metrics.retries + 1))
    else me.(phase := Unlocking(d, false))
  }

  function AlertId(c: Config, d: Delivery, i: nat): string {
    if i < |c.alerts(d.key)| then c.alerts(d.key)[i] else ""
  }

  /** The bus accepts an id once. */
  function Emit(sh: Shared, id: string): Shared {
    if id in sh.seenIds then sh else sh.(seenIds := sh.seenIds + {id}, emitted := sh.emitted + [id])
  }

  function PollOrPick(sh: Shared, me: Worker, choice: Choice): (Shared, Worker) {
    if me.batch == [] then
      var k := if choice.count < |sh.queue| then choice.count else |sh.queue|;
      (sh.(queue := sh.queue[k..]), me.(batch := sh.queue[..k]))
    else
      var d := me.batch[0];
      var m := me.metrics.(seen := me.metrics.seen + 1);
      if d.valid then (sh, Worker(me.batch[1..], Checking(d), m))
      else (sh, Worker(me.batch[1..], DeadLettering(d), m.(deadLettered := m.deadLettered + 1)))
  }

  function Suppressed(me: Worker, d: Delivery): Worker {
    me.(phase := Completing(d), metrics := me.metrics.(duplicates := me.metrics.duplicates + 1))
  }

  function Unlocked(c: Config, me: Worker, d: Delivery, ok: bool): Worker {
    if ok then
      me.(phase := Completing(d),
          metrics := me.metrics.(processed := me.metrics.processed + 1,
                                 published := me.metrics.published + |c.alerts(d.key)|))
    else
      me.(phase := DeadLettering(d), metrics := me.metrics.(deadLettered := me.metrics.deadLettered + 1))
  }

  /** One await of worker `w`. */
  function WorkerStep(c: Config, sh: Shared, w: nat, me: Worker, choice: Choice): (Shared, Worker) {
    match me.phase
    case Waiting => PollOrPick(sh, me, choice)
    case Checking(d) =>
      if d.key in sh.processed then (sh, Suppressed(me, d)) else (sh, me.(phase := Claiming(d)))
    case Claiming(d) =>
      if d.key in sh.locks then (sh, Suppressed(me, d))
      else (sh.(locks := sh.locks[d.key := w]), me.(phase := Entering(d)))
    case Entering(d) =>
      if choice.fails then
        (sh, me.(phase := Unlocking(d, false), metrics := me.metrics.(refused := me.metrics.refused + 1)))
      else (sh, me.(phase := NextAlert(c, d, 1, 0)))
    case Reading(d, n, i) =>
      if choice.fails then (sh, Retried(c, me, d, n))
      else if AlertId(c, d, i) in sh.marked then (sh, me.(phase := NextAlert(c, d, n, i + 1)))
      else (sh, me.(phase := Publishing(d, n, i)))
    case Publishing(d, n, i) =>
      var sent := if choice.fails && !choice.tookEffect then sh else Emit(sh, AlertId(c, d, i));
      (sent, if choice.fails then Retried(c, me, d, n) else me.(phase := Marking(d, n, i)))
    case Marking(d, n, i) =>
      var noted := if choice.fails && !choice.tookEffect then sh else sh.(marked := sh.marked + {AlertId(c, d, i)});
      (noted, if choice.fails then Retried(c, me, d, n) else me.(phase := NextAlert(c, d, n, i + 1)))
    case Finishing(d, n) =>
      var noted := if choice.fails && !choice.tookEffect then sh else sh.(processed := sh.processed + {d.key});
      (noted, if choice.fails then Retried(c, me, d, n) else me.(phase := Unlocking(d, true)))
    case Unlocking(d, ok) => (sh.(locks := sh.locks - {d.key}), Unlocked(c, me, d, ok))
    case Completing(d) => (sh.(completed := sh.completed + [d]), me.(phase := Waiting))
    case DeadLettering(d) => (sh.(dead := sh.dead + [d]), me.(phase := Waiting))
  }

  predicate Enabled(s: State, a: Action) {
    match a
    case Arrive(d) => d !in s.arrived
    case Act(w, _) => w < |s.workers|
  }

  function Next(c: Config, s: State, a: Action): State
    requires Enabled(s, a)
  {
    match a
    case Arrive(d) => s.(arrived := s.arrived + [d], shared := s.shared.(queue := s.shared.queue + [d]))
    case Act(w, choice) =>
      var (sh, me) := WorkerStep(c, s.shared, w, s.workers[w], choice);
      s.(shared := sh, workers := s.workers[w := me])
  }

  const IDLE_WORKER := Worker([], Waiting, Metrics(0, 0, 0, 0, 0, 0, 0))

  function Start(workers: nat): State {
    State([], Shared([], {}, map[], {}, {}, [], [], []), seq(workers, _ => IDLE_WORKER))
  }

  predicate IsRun(c: Config, s: State, actions: seq<Action>)
    decreases |actions|
  {
    actions == [] || (Enabled(s, actions[0]) && IsRun(c, Next(c, s, actions[0]), actions[1..]))
  }

  function After(c: Config, s: State, actions: seq<Action>): State
    requires IsRun(c, s, actions)
    decreases |actions|
  {
    if actions == [] then s else After(c, Next(c, s, actions[0]), actions[1..])
  }

  // ---------------------------------------------------------------------------
  // Locks
  // ---------------------------------------------------------------------------

  /** The event whose lock the worker holds. */
  function Critical(me: Worker): Option<string> {
    match me.phase
    case Entering(d) => Some(d.key)
    case Reading(d, _, _) => Some(d.key)
    case Publishing(d, _, _) => Some(d.key)
    case Marking(d, _, _) => Some(d.key)
    case Finishing(d, _) => Some(d.key)
    case Unlocking(d, _) => Some(d.key)
    case _ => None
  }

  /** A lock is taken exactly when the worker noted with it is in the critical phases of that event. */
  predicate LockAt(sh: Shared, workers: seq<Worker>, k: string) {
    k in sh.locks ==> sh.locks[k] < |workers| && Critical(workers[sh.locks[k]]) == Some(k)
  }

  predicate HolderAt(sh: Shared, w: nat, me: Worker) {
    Critical(me).Some? ==> Critical(me).value in sh.locks && sh.locks[Critical(me).value] == w
  }

  ghost predicate LocksOk(s: State) {
    && (forall k :: LockAt(s.shared, s.workers, k))
    && (forall w | 0 <= w < |s.workers| :: HolderAt(s.shared, w, s.workers[w]))
  }

  /** A worker's step touches only locks it holds or finds free. */
  lemma StepLocks(c: Config, sh: Shared, w: nat, me: Worker, choice: Choice)
    requires HolderAt(sh, w, me)
    ensures var (sh', me') := WorkerStep(c, sh, w, me, choice);
            && HolderAt(sh', w, me')
            && (forall k | k in sh'.locks :: k in sh.locks || (sh'.locks[k] == w && Critical(me') == Some(k)))
            && (forall k | k in sh.locks :: (k in sh'.locks && sh'.locks[k] == sh.locks[k]) || sh.locks[k] == w)
            && (forall k | k in sh'.locks && sh'.locks[k] == w && k in sh.locks ::
                  sh.locks[k] == w && (Critical(me) == Some(k) ==> Critical(me') == Some(k)))
  {
  }

  lemma LocksStep(c: Config, s: State, a: Action)
    requires LocksOk(s) && Enabled(s, a)
    ensures LocksOk(Next(c, s, a))
  {
    var s' := Next(c, s, a);
    if a.Act? {
      hide WorkerStep, Critical;
      var w := a.w;
      assert HolderAt(s.shared, w, s.workers[w]);
      StepLocks(c, s.shared, w, s.workers[w], a.choice);
      forall k
        ensures LockAt(s'.shared, s'.workers, k)
      {
        assert LockAt(s.shared, s.workers, k);
      }
      forall v | 0 <= v < |s'.workers|
        ensures HolderAt(s'.shared, v, s'.workers[v])
      {
        assert HolderAt(s.shared, v, s.workers[v]);
      }
    } else {
      forall k
        ensures LockAt(s'.shared, s'.workers, k)
      {
        assert LockAt(s.shared, s.workers, k);
      }
      forall v | 0 <= v < |s'.workers|
        ensures HolderAt(s'.shared, v, s'.workers[v])
      {
        assert HolderAt(s.shared, v, s.workers[v]);
      }
    }
  }

  /** At most one worker at a time is inside the processing of an event. */
  lemma MutualExclusion(s: State, v: nat, w: nat)
    requires LocksOk(s) && v < |s.workers| && w < |s.workers|
    requires Critical(s.workers[v]).Some? && Critical(s.workers[v]) == Critical(s.workers[w])
    ensures v == w
  {
    assert HolderAt(s.shared, v, s.workers[v]) && HolderAt(s.shared, w, s.workers[w]);
  }
}
