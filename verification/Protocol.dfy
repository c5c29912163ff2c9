/**
 The whole path of a request through the runtime as one step system: submitting threads, the
 scheduler, the routing thread, and one thread per worker. Every lock-held section is one step,
 and between any two steps the environment may cancel or time out any request.

 A thread that probes a request and finds it dead knows it is terminal, and terminal is for
 good; one that finds it alive knows nothing any more by its next step. So a step that drops a
 request demands that it is terminal, and a step that keeps one demands nothing.
 */
module Protocol {
  import opened Types
  import opened RequestLifecycle

  type Id = nat

  datatype Life = Life(state: RequestState, result: Option<InferenceResult>)

  /** What the thread of a worker is doing, and with which requests in its hands. */
  datatype Phase =
    | Idle
    | Holding(first: Id)
    | Forming(batch: seq<Id>)
    | Extra(batch: seq<Id>, next: Id)
    | Formed(batch: seq<Id>)
    | Starting(batch: seq<Id>, i: nat)
    | Started(batch: seq<Id>)
    | Loaded(batch: seq<Id>)
    | Settling(batch: seq<Id>, results: seq<InferenceResult>, i: nat)
    | FailingAll(batch: seq<Id>, i: nat, error: ErrorCode)
    | Ended

  /** How many requests the lane of a worker takes, and how many a batch. */
  datatype Limits = Limits(queue: nat, batch: nat)

  datatype Worker = Worker(limits: Limits, lane: seq<Id>, closed: bool, deferred: Option<Id>, phase: Phase)

  datatype Call = Call(batch: seq<Id>, results: seq<InferenceResult>)

  /** `capacity` is the scheduler's; every worker has limits of its own. */
  datatype Config = Config(fifo: bool, capacity: nat, limits: seq<Limits>, modelOf: Id -> string)

  /** A worker is not built with a batch size of zero. */
  predicate WellConfigured(c: Config) {
    forall w | 0 <= w < |c.limits| :: c.limits[w].batch >= 1
  }

  /** `admitting` are claimed requests on their way into the scheduler, `refusing` those it turned
      away, `accepted` all it ever took, `calls` every call of `infer_batch`. */
  datatype State = State(
    lives: map<Id, Life>, admitting: multiset<Id>, refusing: multiset<Id>,
    scheduled: seq<Id>, closed: bool, accepted: set<Id>,
    hand: Option<Id>, routingEnded: bool, workers: seq<Worker>, calls: seq<Call>)

  function Fresh(limits: Limits): Worker {
    Worker(limits, [], false, None, Idle)
  }

  function Initial(c: Config): State {
    State(map[], multiset{}, multiset{}, [], false, {}, None, false,
          seq(|c.limits|, w requires 0 <= w < |c.limits| => Fresh(c.limits[w])), [])
  }

  function LifeOf(s: State, r: Id): Life {
    if r in s.lives then s.lives[r] else Life(Received, None)
  }

  function StateOf(s: State, r: Id): RequestState {
    LifeOf(s, r).state
  }

  predicate Dead(s: State, r: Id) {
    Terminal(StateOf(s, r))
  }

  /** A transition that is not allowed from the current state changes nothing. */
  function Moved(s: State, r: Id, to: RequestState, result: Option<InferenceResult>): State {
    if ValidTransition(StateOf(s, r), to) then s.(lives := s.lives[r := Life(to, result)]) else s
  }

  // ----- the steps -----

  datatype Step =
    // environment: cancel, timeout, or a submit that is refused before its claim
    | Die(r: Id, to: RequestState, error: ErrorCode)
    // submitting threads
    | Claim(r: Id)
    | Accept(r: Id)
    | TurnAway(r: Id)
    | Refuse(r: Id, error: ErrorCode)
    | CloseScheduler
    // routing thread
    | Take(k: nat)
    | Prune(k: nat)
    | DropHand
    | RejectHand(error: ErrorCode)
    | Push(w: nat)
    | EndRouting
    | GiveUp
    // the thread of worker `w`, or the closing of its lane
    | Work(w: nat, act: Act)

  datatype Act =
    | CloseLane
    | TakeDeferred
    | TakeFirst
    | DropFirst
    | BeginBatch
    | TakeExtra
    | DropExtra
    | Join
    | Defer
    | EndBatch
    | Filter(keep: seq<bool>)
    | Begin(keep: seq<bool>)
    | StartOne
    | SkipStart
    | BeginLoad(keep: seq<bool>)
    | EndLoad(keep: seq<bool>)
    | Infer(results: seq<InferenceResult>)
    | SettleOne
    | BeginFailing(error: ErrorCode)
    | FailStart
    | FailOne
    | Finish
    | EndWorker

  /** What is left of a batch after a filter. */
  function Kept(batch: seq<Id>, keep: seq<bool>): seq<Id>
    requires |keep| == |batch|
  {
    if batch == [] then []
    else Kept(batch[..|batch| - 1], keep[..|batch| - 1]) + (if keep[|batch| - 1] then [batch[|batch| - 1]] else [])
  }

  predicate MayFilter(s: State, batch: seq<Id>, keep: seq<bool>) {
    |keep| == |batch| && forall i | 0 <= i < |batch| && !keep[i] :: Dead(s, batch[i])
  }

  predicate EnabledAct(c: Config, s: State, a: Act, k: Worker) {
    var p := k.phase;
    match a
    case CloseLane => s.routingEnded
    case TakeDeferred => p.Idle? && k.deferred.Some?
    case TakeFirst => p.Idle? && k.deferred.None? && k.lane != []
    case DropFirst => p.Holding? && Dead(s, p.first)
    case BeginBatch => p.Holding?
    case TakeExtra => p.Forming? && |p.batch| < k.limits.batch && k.lane != []
    case DropExtra => p.Extra? && Dead(s, p.next)
    case Join => p.Extra? && p.batch != [] && c.modelOf(p.next) == c.modelOf(p.batch[0])
    // another model, or dead at the second probe
    case Defer => p.Extra? && p.batch != [] && (Dead(s, p.next) || c.modelOf(p.next) != c.modelOf(p.batch[0]))
    case EndBatch => p.Forming? && (k.lane == [] || |p.batch| >= k.limits.batch)
    case Filter(keep) => p.Formed? && MayFilter(s, p.batch, keep)
    case Begin(keep) => p.Formed? && MayFilter(s, p.batch, keep)
    case StartOne => p.Starting? && p.i < |p.batch|
    case SkipStart => p.Starting? && p.i < |p.batch| && Dead(s, p.batch[p.i])
    case BeginLoad(keep) => p.Starting? && p.i == |p.batch| && MayFilter(s, p.batch, keep)
    case EndLoad(keep) => p.Started? && MayFilter(s, p.batch, keep)
    case Infer(_) => p.Loaded?
    case SettleOne => p.Settling? && p.i < |p.batch| && p.i < |p.results|
    // a failed load, or an exception
    case BeginFailing(_) => p.Starting? || p.Started? || p.Loaded?
    case FailStart => p.FailingAll? && p.i < |p.batch| && StateOf(s, p.batch[p.i]) == Queued
    case FailOne => p.FailingAll? && p.i < |p.batch| && StateOf(s, p.batch[p.i]) != Queued
    case Finish => (p.Settling? || p.FailingAll?) && p.i == |p.batch|
    case EndWorker => p.Idle? && k.deferred.None? && k.lane == [] && k.closed
  }

  predicate Enabled(c: Config, s: State, t: Step) {
    match t
    case Die(r, to, _) => to in {Rejected, RequestState.Cancelled, RequestState.TimedOut}
    case Claim(r) => StateOf(s, r) == Received
    case Accept(r) => r in s.admitting && !s.closed && |s.scheduled| < c.capacity
    case TurnAway(r) => r in s.admitting && (s.closed || |s.scheduled| >= c.capacity)
    case Refuse(r, _) => r in s.refusing
    case CloseScheduler => true
    // first in first out, or any entry for the workload-aware scheduler
    case Take(k) => !s.routingEnded && s.hand.None? && k < |s.scheduled| && (c.fifo ==> k == 0)
    case Prune(k) => !c.fifo && !s.routingEnded && s.hand.None? && k < |s.scheduled| && Dead(s, s.scheduled[k])
    case DropHand => s.hand.Some? && Dead(s, s.hand.value)
    case RejectHand(_) => s.hand.Some?
    case Push(w) => s.hand.Some? && w < |s.workers| && !s.workers[w].closed
        && |s.workers[w].lane| < s.workers[w].limits.queue
    case EndRouting => !s.routingEnded && s.hand.None? && s.scheduled == [] && s.closed
    // the workload-aware scheduler answers with nothing when all it held has died
    case GiveUp => !c.fifo && !s.routingEnded && s.hand.None? && s.scheduled != []
        && forall i | 0 <= i < |s.scheduled| :: Dead(s, s.scheduled[i])
    case Work(w, a) => w < |s.workers| && EnabledAct(c, s, a, s.workers[w])
  }

  function Removed(q: seq<Id>, k: nat): seq<Id>
    requires k < |q|
  {
    q[..k] + q[k + 1..]
  }

  function AfterFilter(batch: seq<Id>, next: Phase): Phase {
    if batch == [] then Idle else next
  }

  /** The worker after its own step. */
  function WorkerAfter(c: Config, s: State, a: Act, k: Worker): Worker
    requires EnabledAct(c, s, a, k)
  {
    var p := k.phase;
    match a
    case CloseLane => k.(closed := true)
    case TakeDeferred => k.(deferred := None, phase := Holding(k.deferred.value))
    case TakeFirst => k.(lane := k.lane[1..], phase := Holding(k.lane[0]))
    case DropFirst => k.(phase := Idle)
    case BeginBatch => k.(phase := Forming([p.first]))
    case TakeExtra => k.(lane := k.lane[1..], phase := Extra(p.batch, k.lane[0]))
    case DropExtra => k.(phase := Forming(p.batch))
    case Join => k.(phase := Forming(p.batch + [p.next]))
    case Defer => k.(deferred := Some(p.next), phase := Formed(p.batch))
    case EndBatch => k.(phase := Formed(p.batch))
    case Filter(keep) => var b := Kept(p.batch, keep); k.(phase := AfterFilter(b, Formed(b)))
    case Begin(keep) => var b := Kept(p.batch, keep); k.(phase := AfterFilter(b, Starting(b, 0)))
    case StartOne =>
      k.(phase := if ValidTransition(StateOf(s, p.batch[p.i]), Running) then Starting(p.batch, p.i + 1)
                  else FailingAll(p.batch, 0, InvalidStateTransition))
    case SkipStart => k.(phase := Starting(p.batch, p.i + 1))
    case BeginLoad(keep) => var b := Kept(p.batch, keep); k.(phase := AfterFilter(b, Started(b)))
    case EndLoad(keep) => var b := Kept(p.batch, keep); k.(phase := AfterFilter(b, Loaded(b)))
    // an exception counts as a wrong number of results
    case Infer(results) =>
      k.(phase := if |results| == |p.batch| then Settling(p.batch, results, 0)
          else FailingAll(p.batch, 0, InternalError))
    case SettleOne => k.(phase := Settling(p.batch, p.results, p.i + 1))
    case BeginFailing(error) => k.(phase := FailingAll(p.batch, 0, error))
    case FailStart => k
    case FailOne => k.(phase := FailingAll(p.batch, p.i + 1, p.error))
    case Finish => k.(phase := Idle)
    case EndWorker => k.(phase := Ended)
  }

  /** What a worker's own step does to the requests. */
  function LivesAfter(c: Config, s: State, a: Act, k: Worker): State
    requires EnabledAct(c, s, a, k)
  {
    var p := k.phase;
    match a
    case StartOne => Moved(s, p.batch[p.i], Running, None)
    case SettleOne =>
      if p.results[p.i].Ok() then Moved(s, p.batch[p.i], Completed, Some(p.results[p.i]))
      else Moved(s, p.batch[p.i], Failed, Some(Failure(p.results[p.i].status)))
    case FailStart => Moved(s, p.batch[p.i], Running, None)
    case FailOne => Moved(s, p.batch[p.i], Failed, Some(Failure(p.error)))
    case Infer(results) => s.(calls := s.calls + [Call(p.batch, results)])
    case _ => s
  }

  function After(c: Config, s: State, t: Step): State
    requires Enabled(c, s, t)
  {
    match t
    case Die(r, to, error) => Moved(s, r, to, Some(Failure(error)))
    case Claim(r) => s.(lives := s.lives[r := Life(Queued, None)], admitting := s.admitting + multiset{r})
    case Accept(r) => s.(admitting := s.admitting - multiset{r}, scheduled := s.scheduled + [r],
        accepted := s.accepted + {r})
    case TurnAway(r) => s.(admitting := s.admitting - multiset{r}, refusing := s.refusing + multiset{r})
    case Refuse(r, error) => Moved(s, r, Rejected, Some(Failure(error))).(refusing := s.refusing - multiset{r})
    case CloseScheduler => s.(closed := true)
    case Take(k) => s.(scheduled := Removed(s.scheduled, k), hand := Some(s.scheduled[k]))
    case Prune(k) => s.(scheduled := Removed(s.scheduled, k))
    case DropHand => s.(hand := None)
    case RejectHand(error) => Moved(s, s.hand.value, Rejected, Some(Failure(error))).(hand := None)
    case Push(w) => s.(hand := None, workers := s.workers[w := s.workers[w].(lane := s.workers[w].lane
        + [s.hand.value])])
    case EndRouting => s.(routingEnded := true)
    case GiveUp => s.(scheduled := [], routingEnded := true)
    case Work(w, a) =>
      var k := s.workers[w];
      LivesAfter(c, s, a, k).(workers := s.workers[w := WorkerAfter(c, s, a, k)])
  }

  ghost predicate StepAt(c: Config, run: seq<State>, steps: seq<Step>, i: nat)
    requires i < |steps| && |run| == |steps| + 1
  {
    Enabled(c, run[i], steps[i]) && run[i + 1] == After(c, run[i], steps[i])
  }

  /** A run: an arbitrary sequence of steps, each enabled where it is taken. */
  ghost predicate Run(c: Config, run: seq<State>, steps: seq<Step>) {
    |run| == |steps| + 1 && run[0] == Initial(c) && forall i | 0 <= i < |steps| :: StepAt(c, run, steps, i)
  }

  lemma Extended(c: Config, run: seq<State>, steps: seq<Step>, t: Step)
    requires Run(c, run, steps) && Enabled(c, run[|steps|], t)
    ensures Run(c, run + [After(c, run[|steps|], t)], steps + [t])
  {
    var s' := After(c, run[|steps|], t);
    var run', steps' := run + [s'], steps + [t];
    forall i | 0 <= i < |steps'| ensures StepAt(c, run', steps', i) {
      if i < |steps| {
        assert StepAt(c, run, steps, i);
      }
    }
  }

  lemma ExtendedBy(c: Config, run: seq<State>, steps: seq<Step>, t: Step) returns (run': seq<State>, steps': seq<Step>)
    requires Run(c, run, steps) && Enabled(c, run[|run| - 1], t)
    ensures Run(c, run', steps') && run' == run + [After(c, run[|run| - 1], t)] && steps' == steps + [t]
  {
    Extended(c, run, steps, t);
    run', steps' := run + [After(c, run[|run| - 1], t)], steps + [t];
  }
}
