/**
 The other threads as code: the clients that submit, the routing thread, and the one that stops
 the runtime. Like a worker's, all they do is a run of the step system.
 */
module Runtime {
  import opened Types
  import opened RequestLifecycle
  import opened Protocol
  import opened Ownership
  import opened Places
  import opened Endings
  import opened Drain
  import opened Threads
  import opened Custody

  /** The request was turned down with this code. */
  predicate RejectedWith(s: State, r: Id, code: ErrorCode) {
    StateOf(s, r) == Rejected && LifeOf(s, r).result == Some(InferenceResult(code, None))
  }

  lemma RefuseRejects(c: Config, s: State, r: Id, code: ErrorCode)
    requires Enabled(c, s, Refuse(r, code)) && (Dead(s, r) || StateOf(s, r) == Queued)
    ensures var s' := After(c, s, Refuse(r, code)); if Dead(s, r) then Dead(s', r) else RejectedWith(s', r, code)
  {
  }

  lemma DeathRejects(c: Config, s: State, r: Id, code: ErrorCode)
    requires Enabled(c, s, Die(r, Rejected, code))
    ensures var s' := After(c, s, Die(r, Rejected, code));
            StateOf(s', r) != Received && (StateOf(s, r) == Received ==> RejectedWith(s', r, code))
  {
  }

  /** The routing thread let go of the request, and nothing else has changed. */
  predicate LetGo(s: State, s': State, r: Id) {
    LifeOf(s', r) == LifeOf(s, r) && s'.workers == s.workers
  }

  predicate TurnedDown(s: State, s': State, r: Id, code: ErrorCode) {
    RejectedWith(s', r, code) && s'.workers == s.workers
  }

  /** In the lane of worker `w`, behind all that waited there, if it was open and had room. */
  predicate EnqueuedTo(s: State, s': State, r: Id, w: nat)
    requires w < |s.workers|
  {
    if s.workers[w].closed then TurnedDown(s, s', r, QueueClosed)
    else if |s.workers[w].lane| >= s.workers[w].limits.queue then TurnedDown(s, s', r, QueueFull)
    else
      && LifeOf(s', r) == LifeOf(s, r)
      && s'.workers == s.workers[w := s.workers[w].(lane := s.workers[w].lane + [r])]
  }

  class Runtime {
    const shared: Shared

    ghost predicate Valid()
      reads this, shared
    {
      shared.Valid()
    }

    constructor (shared: Shared)
      requires shared.Valid()
      ensures Valid() && this.shared == shared
    {
      this.shared := shared;
    }

    /** A request the scheduler turned away, or the routing thread has in hand, waits unless it has ended. */
    lemma Rejectable(r: Id)
      requires Valid() && (shared.s.refusing[r] >= 1 || shared.s.hand == Some(r))
      ensures Dead(shared.s, r) || StateOf(shared.s, r) == Queued
    {
      SingleOwnership(shared.c, shared.run, shared.steps, |shared.steps|);
      assert OwnedOk(shared.s, r) && NotRunning(shared.s, r);
    }

    /** Time has passed: the run went on. */
    twostate predicate Onward()
      reads this, shared
    {
      old(shared.run) <= shared.run && old(shared.steps) <= shared.steps && old(shared.own) <= shared.own
    }

    /** Since then, the thread itself took no other steps than these. */
    ghost predicate OwnAre(from: nat, allowed: set<Step>)
      reads this, shared
    {
      && |shared.own| == |shared.steps|
      && forall n | from <= n < |shared.steps| && shared.own[n] :: shared.steps[n] in allowed
    }

    // ----- submitting -----

    /** What a submission leaves behind: a request that is accepted or has ended, or that belongs to another
        submission. */
    ghost predicate Submitted(r: Id, status: ErrorCode)
      reads this, shared
    {
      && StateOf(shared.s, r) != Received
      && (status == NoError ==> Dead(shared.s, r) || r in shared.s.accepted)
      && (status != NoError ==> Dead(shared.s, r) || Claim(r) in shared.steps)
    }

    lemma ClaimedBefore(r: Id)
      requires Valid() && StateOf(shared.s, r) != Received
      ensures Dead(shared.s, r) || Claim(r) in shared.steps
    {
      ClaimedInRun(shared.c, shared.run, shared.steps, |shared.steps|, r);
    }

    /** The request was not Received then, or another thread has claimed or ended it since. */
    ghost predicate Forestalled(from: nat, r: Id)
      reads this, shared
    {
      && from < |shared.run| && |shared.own| == |shared.steps|
      && (|| StateOf(shared.run[from], r) != Received
          || exists n: nat :: from <= n < |shared.steps| && !shared.own[n] && Forestalls(shared.steps[n], r))
    }

    lemma Why(from: nat, to: nat, r: Id)
      requires Valid() && from <= to <= |shared.steps| && StateOf(shared.run[to], r) != Received
      requires forall n | from <= n < to :: !shared.own[n]
      ensures Forestalled(from, r)
    {
      if StateOf(shared.run[from], r) == Received {
        var n := WhyNotReceived(shared.c, shared.run, shared.steps, from, to, r);
      }
    }

    /** Rejected with this code, unless its client was faster. */
    ghost predicate Refused(r: Id, status: ErrorCode, code: ErrorCode)
      reads this, shared
    {
      || (status == code && RejectedWith(shared.s, r, code))
      || (status == InvalidStateTransition && Dead(shared.s, r))
    }

    /** At step `n` the scheduler took the request exactly if it was open and had room; else it turned it away, and
        unless its client was faster the request is rejected with the code for that. */
    ghost predicate DecidedAt(n: nat, r: Id, status: ErrorCode)
      reads this, shared
    {
      && n < |shared.steps| && n < |shared.own| && n < |shared.run| && shared.own[n]
      && if !shared.run[n].closed && |shared.run[n].scheduled| < shared.c.capacity
         then shared.steps[n] == Accept(r) && status == NoError && r in shared.s.accepted
         else
           var code := if shared.run[n].closed then RuntimeStopped else QueueFull;
           && shared.steps[n] == TurnAway(r)
           && Refused(r, status, code)
    }

    ghost predicate Decided(from: nat, r: Id, status: ErrorCode)
      reads this, shared
    {
      exists n: nat :: from <= n && DecidedAt(n, r, status)
    }

    method ClaimRequest(r: Id) returns (claimed: bool)
      requires Valid()
      modifies shared
      ensures Valid() && Onward() && StateOf(shared.s, r) != Received && (claimed ==> shared.s.admitting[r] >= 1)
      ensures OwnAre(|old(shared.steps)|, if claimed then {Claim(r)} else {})
    {
      shared.Others(Client(r));
      claimed := StateOf(shared.s, r) == Received;
      if claimed {
        shared.Take(Claim(r));
      }
    }

    method RejectRefused(r: Id, code: ErrorCode) returns (status: ErrorCode)
      requires Valid() && shared.s.refusing[r] >= 1
      modifies shared
      ensures Valid() && Onward() && shared.steps == old(shared.steps) + [Refuse(r, code)]
      ensures Refused(r, status, code)
    {
      Rejectable(r);
      RefuseRejects(shared.c, shared.s, r, code);
      status := if Dead(shared.s, r) then InvalidStateTransition else code;
      shared.Take(Refuse(r, code));
    }

    method TurnAwayClaimed(r: Id)
      requires Valid() && shared.s.admitting[r] >= 1 && (shared.s.closed || |shared.s.scheduled| >= shared.c.capacity)
      modifies shared
      ensures Valid() && shared.steps == old(shared.steps) + [TurnAway(r)] && shared.run == old(shared.run) + [shared.s]
      ensures shared.own == old(shared.own) + [true]
      ensures shared.s.refusing[r] >= 1 && StateOf(shared.s, r) == StateOf(old(shared.s), r)
    {
      shared.Take(TurnAway(r));
    }

    /** Rejects a request the scheduler would not take. */
    method RefuseRequest(r: Id) returns (status: ErrorCode)
      requires Valid() && shared.s.admitting[r] >= 1 && (shared.s.closed || |shared.s.scheduled| >= shared.c.capacity)
      requires StateOf(shared.s, r) != Received
      modifies shared
      ensures Valid() && Onward() && Dead(shared.s, r) && DecidedAt(|old(shared.steps)|, r, status)
      ensures OwnAre(|old(shared.steps)|, {TurnAway(r), Refuse(r, QueueFull), Refuse(r, RuntimeStopped)})
    {
      var code := if shared.s.closed then RuntimeStopped else QueueFull;
      TurnAwayClaimed(r);
      shared.Others(Client(r));
      status := RejectRefused(r, code);
    }

    /** The scheduler's answer to a claimed request. */
    method EnqueueClaimed(r: Id) returns (status: ErrorCode)
      requires Valid() && shared.s.admitting[r] >= 1 && StateOf(shared.s, r) != Received
      modifies shared
      ensures Valid() && Onward() && Decided(|old(shared.steps)|, r, status) && StateOf(shared.s, r) != Received
      ensures status != NoError ==> Dead(shared.s, r)
      ensures OwnAre(|old(shared.steps)|, {Accept(r), TurnAway(r), Refuse(r, QueueFull), Refuse(r, RuntimeStopped)})
    {
      shared.Others(Client(r));
      ghost var n := |shared.steps|;
      if shared.s.closed || |shared.s.scheduled| >= shared.c.capacity {
        status := RefuseRequest(r);
      } else {
        shared.Take(Accept(r));
        status := NoError;
      }
      assert DecidedAt(n, r, status);
    }

    /** `AdmissionController::admit`: of all who submit a request, one claims it; and the scheduler decides. */
    method Admit(r: Id) returns (status: ErrorCode, ghost claimed: bool)
      requires Valid()
      modifies shared
      ensures Valid() && Onward() && Submitted(r, status)
      ensures claimed ==> Decided(|old(shared.steps)|, r, status)
      ensures !claimed ==> Forestalled(|old(shared.steps)|, r) && OwnAre(|old(shared.steps)|, {})
      ensures !claimed ==> status == InvalidStateTransition || (status == NoError && Dead(shared.s, r))
      ensures OwnAre(|old(shared.steps)|,
                     {Claim(r), Accept(r), TurnAway(r), Refuse(r, QueueFull), Refuse(r, RuntimeStopped)})
    {
      ghost var from := |shared.steps|;
      shared.Others(Client(r));
      if Dead(shared.s, r) {
        Why(from, |shared.steps|, r);
        return NoError, false;
      }
      var first := ClaimRequest(r);
      if !first {
        ClaimedBefore(r);
        Why(from, |shared.steps|, r);
        return InvalidStateTransition, false;
      }
      status := EnqueueClaimed(r);
      claimed := true;
    }

    method RefuseStopped(r: Id)
      requires Valid()
      modifies shared
      ensures Valid() && Onward() && StateOf(shared.s, r) != Received
      ensures OwnAre(|old(shared.steps)|, {Die(r, Rejected, RuntimeStopped)})
      ensures Forestalled(|old(shared.steps)|, r) || RejectedWith(shared.s, r, RuntimeStopped)
    {
      ghost var from := |shared.steps|;
      shared.Others(Client(r));
      ghost var to := |shared.steps|;
      if StateOf(shared.s, r) == Received {
        shared.Others(Client(r));
        to := |shared.steps|;
        DeathRejects(shared.c, shared.s, r, RuntimeStopped);
        shared.Take(Die(r, Rejected, RuntimeStopped));
      }
      if StateOf(shared.run[to], r) != Received {
        Why(from, to, r);
      }
    }

    /** `Runtime::submit`, given whether the runtime is accepting when it looks. */
    method Submit(r: Id, accepting: bool) returns (status: ErrorCode, ghost claimed: bool)
      requires Valid()
      modifies shared
      ensures Valid() && Onward() && Submitted(r, status)
      ensures claimed ==> accepting && Decided(|old(shared.steps)|, r, status)
      ensures !claimed && accepting ==> Forestalled(|old(shared.steps)|, r) && OwnAre(|old(shared.steps)|, {})
      ensures !accepting ==> OwnAre(|old(shared.steps)|, {Die(r, Rejected, RuntimeStopped)})
      ensures !accepting ==>
                || Forestalled(|old(shared.steps)|, r)
                || (status == RuntimeStopped && RejectedWith(shared.s, r, RuntimeStopped))
    {
      ghost var from := |shared.steps|;
      shared.Others(Client(r));
      if Dead(shared.s, r) {
        Why(from, |shared.steps|, r);
        return NoError, false;
      }
      ghost var since := |shared.steps|;
      if accepting {
        status, claimed := Admit(r);
      } else {
        RefuseStopped(r);
        ClaimedBefore(r);
        status, claimed := RuntimeStopped, false;
      }
      if StateOf(shared.run[since], r) != Received {
        Why(from, since, r);
      }
    }

    // ----- routing -----

    ghost predicate Placed(r: Id)
      reads this, shared
    {
      Dead(shared.s, r) || exists w :: 0 <= w < |shared.s.workers| && r in shared.s.workers[w].lane
    }

    /** The request in hand at step `n`, which was the thread's only step, went where it had to. A dead one was let
        go; any other, to its lane if its model is known, a worker was selected, and that worker is open and has
        room. Else it was rejected, with the code of what was missing. */
    ghost predicate RoutedAt(n: nat, r: Id, known: bool, selected: Option<nat>)
      reads this, shared
    {
      && n + 1 == |shared.steps| && n + 1 < |shared.run|
      && var s := shared.run[n];
         var s' := shared.s;
         && s.hand == Some(r)
         && if Dead(s, r) then LetGo(s, s', r)
            else if !known then TurnedDown(s, s', r, ModelNotFound)
            else if selected.None? then TurnedDown(s, s', r, NoFeasibleWorker)
            else if selected.value >= |s.workers| then TurnedDown(s, s', r, InternalError)
            else EnqueuedTo(s, s', r, selected.value)
    }

    method RejectRouted(code: ErrorCode)
      requires Valid() && shared.s.hand.Some?
      modifies shared
      ensures Valid() && shared.steps == old(shared.steps) + [RejectHand(code)]
      ensures shared.run == old(shared.run) + [shared.s] && shared.own == old(shared.own) + [true]
      ensures shared.s.hand.None? && Dead(shared.s, old(shared.s.hand.value))
      ensures if old(Dead(shared.s, shared.s.hand.value)) then LetGo(old(shared.s), shared.s, old(shared.s.hand.value))
              else TurnedDown(old(shared.s), shared.s, old(shared.s.hand.value), code)
    {
      Rejectable(shared.s.hand.value);
      shared.Take(RejectHand(code));
    }

    /** `Worker::try_enqueue`, and a rejection if it fails. */
    method EnqueueTo(w: nat)
      requires Valid() && shared.s.hand.Some? && w < |shared.s.workers|
      modifies shared
      ensures Valid() && shared.s.hand.None? && Placed(old(shared.s.hand.value))
      ensures |shared.steps| == |old(shared.steps)| + 1 && old(shared.steps) <= shared.steps
      ensures shared.run == old(shared.run) + [shared.s] && shared.own == old(shared.own) + [true]
      ensures if old(Dead(shared.s, shared.s.hand.value)) then LetGo(old(shared.s), shared.s, old(shared.s.hand.value))
              else EnqueuedTo(old(shared.s), shared.s, old(shared.s.hand.value), w)
    {
      var r := shared.s.hand.value;
      if shared.s.workers[w].closed {
        RejectRouted(QueueClosed);
      } else if Dead(shared.s, r) {
        shared.Take(DropHand);
      } else if |shared.s.workers[w].lane| >= shared.s.workers[w].limits.queue {
        RejectRouted(QueueFull);
      } else {
        shared.Take(Push(w));
        assert r in shared.s.workers[w].lane;
      }
    }

    /** Rejects what cannot be placed, or hands it to the selected worker. */
    method Dispatch(known: bool, selected: Option<nat>)
      requires Valid() && shared.s.hand.Some? && !Dead(shared.s, shared.s.hand.value)
      modifies shared
      ensures Valid() && Onward() && shared.s.hand.None? && Placed(old(shared.s.hand.value))
      ensures |shared.steps| > |old(shared.steps)|
      ensures RoutedAt(|shared.steps| - 1, old(shared.s.hand.value), known, selected)
      ensures forall n | |old(shared.steps)| <= n < |shared.steps| - 1 :: !Mine(Router, shared.steps[n])
    {
      if !known {
        RejectRouted(ModelNotFound);
      } else if selected.None? {
        RejectRouted(NoFeasibleWorker);
      } else if selected.value >= |shared.s.workers| {
        RejectRouted(InternalError);
      } else {
        shared.Others(Router);
        EnqueueTo(selected.value);
      }
    }

    /** `Runtime::route_request`, given whether the registry knows the model and which worker the router selects. */
    method RouteRequest(known: bool, selected: Option<nat>)
      requires Valid() && shared.s.hand.Some?
      modifies shared
      ensures Valid() && Onward() && shared.s.hand.None? && Placed(old(shared.s.hand.value))
      ensures |shared.steps| > |old(shared.steps)|
      ensures RoutedAt(|shared.steps| - 1, old(shared.s.hand.value), known, selected)
      ensures var r, n := old(shared.s.hand.value), |shared.steps| - 1;
              Spared(shared.steps, |old(shared.steps)|, n, r) ==> LifeOf(shared.run[n], r) == LifeOf(old(shared.s), r)
    {
      ghost var from, r := |shared.steps|, shared.s.hand.value;
      shared.Others(Router);
      if Dead(shared.s, shared.s.hand.value) {
        shared.Take(DropHand);
      } else {
        Dispatch(known, selected);
      }
      if Spared(shared.steps, from, |shared.steps| - 1, r) {
        HandLeftAlone(shared.c, shared.run, shared.steps, from, |shared.steps| - 1, r);
      }
    }

    method TakeFront()
      requires Valid() && shared.s.hand.None? && !shared.s.routingEnded && shared.s.scheduled != []
      modifies shared
      ensures Valid() && Onward() && !shared.s.routingEnded && old(shared.s.scheduled)[1..] <= shared.s.scheduled
      ensures shared.s.hand == Some(old(shared.s.scheduled)[0])
              || (shared.s.hand.None? && Dead(shared.s, old(shared.s.scheduled)[0]))
    {
      shared.Take(Step.Take(0));
      shared.Others(Router);
      if Dead(shared.s, shared.s.hand.value) {
        shared.Take(DropHand);
      }
    }

    /** `next` of the first-in-first-out scheduler, which waits while it is open and empty: its front, unless dead. */
    method NextFifo()
      requires Valid() && shared.c.fifo && shared.s.hand.None? && !shared.s.routingEnded
      modifies shared
      ensures Valid() && Onward() && (shared.s.hand.Some? ==> !shared.s.routingEnded)
      ensures shared.s.routingEnded ==> shared.s.closed && shared.s.scheduled == []
      ensures old(shared.s.scheduled) != [] ==>
                && !shared.s.routingEnded && old(shared.s.scheduled)[1..] <= shared.s.scheduled
                && (|| shared.s.hand == Some(old(shared.s.scheduled)[0])
                    || (shared.s.hand.None? && Dead(shared.s, old(shared.s.scheduled)[0])))
    {
      shared.Others(Router);
      if shared.s.scheduled != [] {
        TakeFront();
      } else if shared.s.closed {
        shared.Take(EndRouting);
      }
    }

    /** `next` of the workload-aware scheduler: an entry of its choice, or nothing once all it holds is dead. */
    method NextWorkloadAware()
      requires Valid() && !shared.c.fifo && shared.s.hand.None? && !shared.s.routingEnded
      modifies shared
      ensures Valid() && Onward()
      ensures shared.s.hand.Some? ==> !shared.s.routingEnded && !Dead(shared.s, shared.s.hand.value)
      ensures shared.s.routingEnded ==>
                shared.s.scheduled == [] && forall r | r in old(shared.s.scheduled) :: Dead(shared.s, r)
      ensures old(shared.s.scheduled) != [] ==> shared.s.routingEnded || shared.s.hand.Some?
      ensures forall r | r in old(shared.s.scheduled) ::
                Dead(shared.s, r) || r in shared.s.scheduled || shared.s.hand == Some(r)
    {
      shared.Others(Router);
      var q := shared.s.scheduled;
      if q == [] {
        if shared.s.closed {
          shared.Take(EndRouting);
        }
      } else if forall i | 0 <= i < |q| :: Dead(shared.s, q[i]) {
        shared.Take(GiveUp);
      } else {
        var k :| 0 <= k < |q| && !Dead(shared.s, q[k]);
        shared.Take(Step.Take(k));
      }
    }

    /** One pass of `routing_loop`: nothing stays in hand, and first in first out goes the front to its place. */
    method RouteNext(known: bool, selected: Option<nat>) returns (running: bool)
      requires Valid() && shared.s.hand.None? && !shared.s.routingEnded
      modifies shared
      ensures Valid() && Onward() && shared.s.hand.None? && (!running ==> shared.s.scheduled == [])
      ensures !running && shared.c.fifo ==> shared.s.closed
      ensures shared.c.fifo && old(shared.s.scheduled) != [] ==> running && Placed(old(shared.s.scheduled)[0])
    {
      if shared.c.fifo {
        NextFifo();
      } else {
        NextWorkloadAware();
      }
      running := !shared.s.routingEnded;
      if shared.s.hand.Some? {
        RouteRequest(known, selected);
      }
    }

    // ----- stopping -----

    method CloseLanes()
      requires Valid() && shared.s.closed && shared.s.routingEnded
      modifies shared
      ensures Valid() && Onward() && shared.s.closed && shared.s.routingEnded
      ensures forall w | 0 <= w < |shared.s.workers| :: shared.s.workers[w].closed
    {
      var w := 0;
      while w < |shared.s.workers|
        invariant Valid() && Onward() && shared.s.closed && shared.s.routingEnded
        invariant w <= |shared.s.workers| == |old(shared.s.workers)|
        invariant forall v | 0 <= v < w :: shared.s.workers[v].closed
      {
        shared.Take(Work(w, CloseLane));
        shared.Others(Stopper);
        w := w + 1;
      }
    }

    /** `Runtime::stop`, which returns once the threads it joins have ended: drained, with the
        first-in-first-out scheduler. By then every lane is closed, and nothing more is accepted from the start on. */
    method Stop() returns (returned: bool)
      requires Valid()
      modifies shared
      ensures Valid() && Onward() && shared.s.closed && (returned <==> Stopped(shared.s))
      ensures shared.s.routingEnded ==> forall w | 0 <= w < |shared.s.workers| :: shared.s.workers[w].closed
      ensures returned && shared.c.fifo ==> Drained(shared.s)
    {
      shared.Take(CloseScheduler);
      shared.Others(Stopper);
      if !shared.s.routingEnded {
        return false;
      }
      CloseLanes();
      shared.Others(Stopper);
      returned := Stopped(shared.s);
      if returned && shared.c.fifo {
        FifoDrains(shared.c, shared.run, shared.steps, |shared.steps|);
      }
    }
  }
}
