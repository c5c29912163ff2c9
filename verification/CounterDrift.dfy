/**
 The counter of queued requests is not exact. A request that dies between the two probes of a
 newly popped one is taken off it twice; one that dies between the two filters before a batch is
 started is never taken off; nor is one that is pushed and discarded before the push is counted.
 Here is an execution of each kind.
 */
module CounterDrift {
  import opened Types
  import opened RequestLifecycle
  import opened Protocol
  import opened Threads
  import opened Workers

  const PAIR: Config := Config(true, 2, [Limits(2, 2)], r => "m")

  /** Nothing is on its way to the worker. */
  predicate FrontEmpty(s: State) {
    s.hand.None? && s.scheduled == [] && !s.closed && !s.routingEnded
  }

  /** One request goes from its client to the hand of the routing thread. */
  method Schedule(worker: Workers.Worker, r: Id)
    requires worker.Valid() && worker.shared.c == PAIR
    requires FrontEmpty(worker.shared.s) && StateOf(worker.shared.s, r) == Received
    modifies worker.shared
    ensures worker.Valid() && worker.Me() == old(worker.Me())
    ensures FrontEmpty(worker.shared.s.(hand := None)) && worker.shared.s.hand == Some(r)
    ensures worker.shared.s.lives == old(worker.shared.s.lives)[r := Life(Queued, None)]
  {
    worker.shared.Take(Claim(r));
    worker.shared.Take(Accept(r));
    worker.shared.Take(Step.Take(0));
  }

  /** And on to the lane, counted at once or later. */
  method Deliver(worker: Workers.Worker, r: Id, counted: bool)
    requires worker.Valid() && worker.shared.c == PAIR && worker.w == 0
    requires FrontEmpty(worker.shared.s) && StateOf(worker.shared.s, r) == Received
    requires !worker.Me().closed && |worker.Me().lane| < 2 && !worker.uncounted
    modifies worker`queuedCount, worker`uncounted, worker.shared
    ensures worker.uncounted == !counted
    ensures worker.Valid() && FrontEmpty(worker.shared.s) && StateOf(worker.shared.s, r) == Queued
    ensures forall x: Id | x != r :: LifeOf(worker.shared.s, x) == old(LifeOf(worker.shared.s, x))
    ensures worker.Me() == old(worker.Me()).(lane := old(worker.Me()).lane + [r])
  {
    Schedule(worker, r);
    worker.shared.Take(Push(0));
    worker.uncounted := !counted;
    if counted {
      worker.queuedCount := worker.queuedCount + 1;
    }
  }

  method BothDelivered() returns (worker: Workers.Worker)
    ensures fresh(worker) && fresh(worker.shared) && worker.Valid() && worker.w == 0 && worker.shared.c == PAIR
    ensures worker.Me() == Fresh(Limits(2, 2)).(lane := [0, 1]) && StateOf(worker.shared.s, 1) == Queued
    ensures worker.late == worker.doubled == worker.skipped == worker.raced == 0 && !worker.uncounted
  {
    var shared := new Shared(PAIR);
    worker := new Workers.Worker(shared, 0);
    Deliver(worker, 0, true);
    Deliver(worker, 1, true);
  }

  method BothInHand() returns (worker: Workers.Worker)
    ensures fresh(worker) && fresh(worker.shared) && worker.Valid() && worker.w == 0
    ensures worker.Me().phase == Extra([0], 1) && StateOf(worker.shared.s, 1) == Queued
    ensures worker.late == worker.doubled == worker.skipped == worker.raced == 0 && !worker.uncounted
  {
    worker := BothDelivered();
    worker.Do(TakeFirst);
    worker.Do(BeginBatch);
    worker.Do(TakeExtra);
  }

  /** Both requests are in hand when the second dies; it is discarded, and deferred all the same. */
  method CounterFallsBehind() returns (worker: Workers.Worker)
    ensures worker.Valid() && worker.queuedCount == StillQueued(worker.Me()) - 1
  {
    worker := BothInHand();
    worker.shared.Take(Die(1, RequestState.Cancelled, ErrorCode.Cancelled));
    worker.DeferDead();
  }

  method OneDelivered(counted: bool) returns (worker: Workers.Worker)
    ensures fresh(worker) && fresh(worker.shared) && worker.Valid() && worker.w == 0
    ensures worker.Me() == Fresh(Limits(2, 2)).(lane := [0]) && StateOf(worker.shared.s, 0) == Queued
    ensures worker.late == worker.doubled == worker.skipped == worker.raced == 0 && worker.uncounted == !counted
  {
    var shared := new Shared(PAIR);
    worker := new Workers.Worker(shared, 0);
    Deliver(worker, 0, counted);
  }

  method OneFormed() returns (worker: Workers.Worker)
    ensures fresh(worker) && fresh(worker.shared) && worker.Valid() && worker.w == 0
    ensures worker.Me() == Fresh(Limits(2, 2)).(phase := Formed([0])) && StateOf(worker.shared.s, 0) == Queued
    ensures worker.late == worker.doubled == worker.skipped == worker.raced == 0 && !worker.uncounted
  {
    worker := OneDelivered(true);
    assert [0][1..] == [];
    worker.Do(TakeFirst);
    worker.Do(BeginBatch);
    worker.Do(EndBatch);
  }

  /** The one member of a batch dies between the two filters. */
  method CounterStaysAhead() returns (worker: Workers.Worker)
    ensures worker.Valid() && worker.Me() == Fresh(Limits(2, 2)) && worker.queuedCount == StillQueued(worker.Me()) + 1
  {
    worker := OneFormed();
    worker.shared.Take(Die(0, RequestState.Cancelled, ErrorCode.Cancelled));
    assert Kept([0], [false]) == [];
    worker.BecomeBusy([0], [], [false]);
  }

  method TakenUncounted() returns (worker: Workers.Worker)
    ensures fresh(worker) && fresh(worker.shared) && worker.Valid() && worker.w == 0
    ensures worker.Me() == Fresh(Limits(2, 2)).(phase := Holding(0)) && StateOf(worker.shared.s, 0) == Queued
    ensures worker.late == worker.doubled == worker.skipped == worker.raced == 0 && worker.uncounted
  {
    worker := OneDelivered(false);
    assert [0][1..] == [];
    worker.Do(TakeFirst);
  }

  /** A request is pushed, dies, and is discarded while the counter does not know of it; then it is counted. */
  method CounterMissesDiscard() returns (worker: Workers.Worker)
    ensures worker.Valid() && worker.Me() == Fresh(Limits(2, 2)) && worker.queuedCount == StillQueued(worker.Me()) + 1
  {
    worker := TakenUncounted();
    worker.shared.Take(Die(0, RequestState.Cancelled, ErrorCode.Cancelled));
    worker.Do(DropFirst);
    worker.Discard();
    worker.uncounted, worker.queuedCount := false, worker.queuedCount + 1;
  }
}
