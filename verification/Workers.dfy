/**
 The thread of one worker, as code: taking requests from its lane, forming batches, executing
 them. Whatever it does is a run of the step system, and between any two of its own steps the
 other threads may take theirs.
 */
module Workers {
  import opened Types
  import opened RequestLifecycle
  import opened Protocol
  import opened Ownership
  import opened Places
  import opened Delivery
  import opened BoundedWork
  import opened LaneOrder
  import opened Endings
  import opened Threads

  /** What the model manager answers: an exception is an answer too. */
  datatype Residency = Ready | Refused(error: ErrorCode) | Threw

  /** What the backend answers. An exception is logged as no results. */
  datatype Reply = Replied(results: seq<InferenceResult>) | Thrown {
    function Logged(): seq<InferenceResult> {
      if Thrown? then [] else results
    }
  }

  datatype BatchMetrics = BatchMetrics(batches: nat, requests: nat, multi: nat, largest: nat)

  /** Requests in hand that still count as queued. */
  function Unstarted(p: Phase): nat {
    match p
    case Holding(_) => 1
    case Forming(batch) => |batch|
    case Extra(batch, _) => |batch| + 1
    case Formed(batch) => |batch|
    case _ => 0
  }

  function StillQueued(k: Protocol.Worker): nat {
    |k.lane| + Size(k.deferred) + Unstarted(k.phase)
  }

  ghost predicate Over(s: State, batch: seq<Id>) {
    forall r | r in batch :: Dead(s, r)
  }

  /** Whoever a filter took out of the batch has ended. */
  ghost predicate LeftOver(s: State, batch: seq<Id>, live: seq<Id>) {
    forall r | r in batch :: r in live || Dead(s, r)
  }

  ghost predicate NoneDead(s: State, live: seq<Id>) {
    forall r | r in live :: !Dead(s, r)
  }

  lemma {:induction false} KeptOrDead(s: State, batch: seq<Id>, keep: seq<bool>)
    requires MayFilter(s, batch, keep)
    ensures LeftOver(s, batch, Kept(batch, keep))
  {
    if batch != [] {
      var n := |batch| - 1;
      KeptOrDead(s, batch[..n], keep[..n]);
      forall r | r in batch ensures r in Kept(batch, keep) || Dead(s, r) {
        assert r in batch[..n] || r == batch[n];
      }
    }
  }

  lemma OverAtLast(s: State, s': State, batch: seq<Id>, live: seq<Id>)
    requires LeftOver(s, batch, live) && Later(s, s') && Over(s', live)
    ensures Over(s', batch)
  {
  }

  lemma FilteredOne(s: State, s': State, batch: seq<Id>, i: nat, keep: seq<bool>, alive: bool)
    requires i < |batch| && MayFilter(s, batch[..i], keep) && Later(s, s') && (alive || Dead(s', batch[i]))
    ensures MayFilter(s', batch[..i + 1], keep + [alive])
    ensures Kept(batch[..i + 1], keep + [alive]) == Kept(batch[..i], keep) + (if alive then [batch[i]] else [])
  {
    assert batch[..i + 1][..i] == batch[..i] && (keep + [alive])[..i] == keep;
    forall j | 0 <= j < i && !keep[j] ensures Dead(s', batch[j]) {
      assert Dead(s, batch[..i][j]);
    }
  }

  // ----- how a member ends that is left alone -----

  /** The backend was sent `final`: as many results settle each member with its own, anything else fails all. */
  ghost predicate AsAnswered(s: State, r: Id, final: seq<Id>, reply: Reply) {
    if reply.Replied? && |reply.results| == |final|
    then exists m :: 0 <= m < |final| && final[m] == r && EndedWith(s, r, reply.results[m])
    else FailedBy(s, r, InternalError)
  }

  ghost predicate AsLoaded(s: State, r: Id, residency: Residency, final: seq<Id>, reply: Reply) {
    match residency
    case Ready => AsAnswered(s, r, final, reply)
    case Refused(error) => FailedBy(s, r, error)
    case Threw => FailedBy(s, r, InternalError)
  }

  ghost predicate AsExecuted(s: State, r: Id, startFailed: bool, residency: Residency, final: seq<Id>, reply: Reply) {
    if startFailed then FailedBy(s, r, InvalidStateTransition) else AsLoaded(s, r, residency, final, reply)
  }

  class Worker {
    const shared: Shared
    const w: nat
    var queuedCount: int
    var activeCount: nat
    var busy: bool
    var metrics: BatchMetrics
    // The routing thread has pushed a request and not counted it yet.
    var uncounted: bool
    // Requests that died between the two filters before a batch is started: never subtracted.
    ghost var late: nat
    // Requests that died between the two probes of a newly popped one: discarded, yet deferred.
    ghost var doubled: nat
    // Requests discarded while the counter stood at zero, and every push was counted...
    ghost var skipped: nat
    // ... or one was not.
    ghost var raced: nat

    ghost predicate Sound()
      reads this, shared
    {
      && shared.Valid() && w < |shared.s.workers| && w < |shared.c.limits| && Me().limits == shared.c.limits[w]
      && metrics.multi <= metrics.batches <= metrics.requests && metrics.largest <= shared.c.limits[w].batch
    }

    /** The exact law of the counter. */
    ghost predicate Counted()
      requires w < |shared.s.workers|
      reads this, shared
    {
      && queuedCount == StillQueued(Me()) + late + skipped + raced - doubled - (if uncounted then 1 else 0)
      && skipped <= doubled
    }

    ghost predicate Valid()
      reads this, shared
    {
      Sound() && Counted()
    }

    predicate AtRest()
      reads this
    {
      !busy && activeCount == 0
    }

    function Me(): Protocol.Worker
      requires w < |shared.s.workers|
      reads this, shared
    {
      shared.s.workers[w]
    }

    /** Time has passed: the run went on. */
    twostate predicate Onward()
      reads this, shared
    {
      old(shared.run) <= shared.run && old(shared.steps) <= shared.steps
    }

    /** Since then, no batch of this worker has been started or ended. */
    ghost predicate Silent(from: nat)
      reads this, shared
    {
      NoStarts(from) && NoEndings(from)
    }

    ghost predicate NoStarts(from: nat)
      reads this, shared
    {
      forall n | from <= n < |shared.steps| :: shared.steps[n] != Work(w, StartOne)
    }

    ghost predicate NoEndings(from: nat)
      reads this, shared
    {
      forall n | from <= n < |shared.steps| :: !EndsOne(shared.steps[n], w)
    }

    /** Alive then, and neither its client nor its deadline has ended it since. */
    ghost predicate LeftAlone(from: nat, r: Id)
      reads this, shared
    {
      from < |shared.run| && !Dead(shared.run[from], r) && Spared(shared.steps, from, |shared.steps|, r)
    }

    constructor (shared: Shared, w: nat)
      requires shared.Valid() && shared.s == Initial(shared.c) && w < |shared.c.limits|
      ensures Valid() && AtRest() && Me().phase == Idle && this.shared == shared && this.w == w
      ensures late == doubled == skipped == raced == 0 && !uncounted
    {
      this.shared := shared;
      this.w := w;
      queuedCount, activeCount, busy, metrics := 0, 0, false, BatchMetrics(0, 0, 0, 0);
      late, doubled, skipped, raced, uncounted := 0, 0, 0, 0, false;
    }

    /** What every run promises holds here and now. */
    lemma Known()
      requires Sound()
      ensures WorkerOk(shared.s, Me()) && WorkerFits(shared.c, Me())
    {
      SingleOwnership(shared.c, shared.run, shared.steps, |shared.steps|);
      FitsInRun(shared.c, shared.run, shared.steps, |shared.steps|);
    }

    /** The lane is emptied in the order it was filled. */
    lemma InArrivalOrder()
      requires Sound()
      ensures Protocol.Run(shared.c, shared.run, shared.steps)
      ensures InOrder(shared.c, shared.s, w, HistoryAt(shared.run, shared.steps, w, |shared.steps|))
    {
      FitsInRun(shared.c, shared.run, shared.steps, |shared.steps|);
      LaneOrderConserved(shared.c, shared.run, shared.steps, w, |shared.steps|);
    }

    // ----- steps -----

    method Do(a: Act)
      requires Sound() && EnabledAct(shared.c, shared.s, a, Me())
      modifies shared
      ensures Sound() && Onward() && shared.steps == old(shared.steps) + [Work(w, a)]
      ensures Me() == WorkerAfter(shared.c, old(shared.s), a, old(Me()))
      ensures var l := LivesAfter(shared.c, old(shared.s), a, old(Me()));
              shared.s.lives == l.lives && shared.s.calls == l.calls
    {
      LivesKeepDead(shared.c, shared.s, a, Me(), 0);
      shared.Take(Work(w, a));
    }

    /** The other threads run. The routing thread counts a push before its next one. */
    method Interfere(fed: bool)
      requires Valid()
      modifies shared, `queuedCount, `uncounted
      ensures Valid() && Onward() && Silent(|old(shared.steps)|)
      ensures Me().phase == old(Me().phase) && Me().deferred == old(Me().deferred)
      ensures old(Me().lane) <= Me().lane && (!fed ==> Me().lane == old(Me().lane))
    {
      var before := |Me().lane|;
      shared.Others(WorkerThread(w, fed));
      var pushed := |Me().lane| - before;
      var pending: bool := *;
      pending := pending && (pushed > 0 || uncounted);
      queuedCount := queuedCount + pushed + (if uncounted then 1 else 0) - (if pending then 1 else 0);
      uncounted := pending;
    }

    method IsDead(r: Id, fed: bool) returns (dead: bool)
      requires Valid()
      modifies shared, `queuedCount, `uncounted
      ensures Valid() && Onward() && Silent(|old(shared.steps)|) && dead == Dead(shared.s, r)
      ensures Me().phase == old(Me().phase) && Me().deferred == old(Me().deferred)
      ensures old(Me().lane) <= Me().lane && (!fed ==> Me().lane == old(Me().lane))
    {
      Interfere(fed);
      dead := Dead(shared.s, r);
    }

    /** The counter is unsigned: only at zero it is left alone. */
    method Discard()
      modifies `queuedCount, `skipped, `raced
      ensures queuedCount - skipped - raced == old(queuedCount - skipped - raced) - 1
      ensures skipped == old(skipped) + (if old(queuedCount) == 0 && !uncounted then 1 else 0)
      ensures raced == old(raced) + (if old(queuedCount) == 0 && uncounted then 1 else 0)
    {
      if queuedCount != 0 {
        queuedCount := queuedCount - 1;
      } else if uncounted {
        raced := raced + 1;
      } else {
        skipped := skipped + 1;
      }
    }

    // ----- forming a batch -----

    method TakeNext()
      requires Valid() && Me().phase.Forming? && |Me().phase.batch| < shared.c.limits[w].batch && Me().lane != []
      modifies shared
      ensures Valid() && Onward() && Me().deferred == old(Me().deferred)
      ensures Me().phase == Extra(old(Me().phase.batch), old(Me().lane[0])) && Me().lane == old(Me().lane[1..])
    {
      Do(TakeExtra);
    }

    method DropNext()
      requires Valid() && Me().phase.Extra? && Dead(shared.s, Me().phase.next)
      modifies shared, `queuedCount, `skipped, `raced
      ensures Valid() && Onward() && Me().deferred == old(Me().deferred)
      ensures Me().phase == Forming(old(Me().phase.batch)) && Me().lane == old(Me().lane)
    {
      Do(DropExtra);
      Discard();
    }

    /** Pops one request if there is one; a dead one is discarded. */
    method PopOnce(fed: bool) returns (empty: bool)
      requires Valid() && Me().phase.Forming? && |Me().phase.batch| < shared.c.limits[w].batch
      modifies shared, `queuedCount, `uncounted, `skipped, `raced
      ensures Valid() && Onward() && Me().deferred == old(Me().deferred)
      ensures empty ==> Me().lane == [] && Me().phase == old(Me().phase)
      ensures Me().phase == old(Me().phase) || (Me().phase.Extra? && Me().phase.batch == old(Me().phase.batch))
      ensures !empty && !fed ==> |Me().lane| < |old(Me().lane)|
    {
      Interfere(fed);
      empty := Me().lane == [];
      if !empty {
        TakeNext();
        var dead := IsDead(Me().phase.next, fed);
        if dead {
          DropNext();
        }
      }
    }

    method PopUntil() returns (found: bool)
      requires Valid() && Me().phase.Forming? && |Me().phase.batch| < shared.c.limits[w].batch
      modifies shared, `queuedCount, `uncounted, `skipped, `raced
      ensures Valid() && Onward() && Me().deferred == old(Me().deferred)
      ensures !found ==> Me().phase == old(Me().phase) && Me().lane == []
      ensures found ==> Me().phase.Extra? && Me().phase.batch == old(Me().phase.batch)
    {
      var patience: nat := *;
      found := false;
      var empty := false;
      while !found && !empty
        invariant Valid() && Onward() && Me().deferred == old(Me().deferred)
        invariant !found ==> Me().phase == old(Me().phase)
        invariant empty ==> Me().lane == []
        invariant found ==> Me().phase.Extra? && Me().phase.batch == old(Me().phase.batch)
        decreases patience, |Me().lane|, !empty
      {
        var fed := patience > 0;
        if fed {
          patience := patience - 1;
        }
        empty := PopOnce(fed);
        found := Me().phase.Extra?;
      }
    }

    method JoinNext()
      requires Valid() && Me().phase.Extra? && Me().phase.batch != []
      requires shared.c.modelOf(Me().phase.next) == shared.c.modelOf(Me().phase.batch[0])
      modifies shared
      ensures Valid() && Onward() && Me().phase == Forming(old(Me().phase.batch) + [old(Me().phase.next)])
    {
      Do(Join);
    }

    /** A request of another model waits for the next batch. */
    method DeferNext()
      requires Valid() && Me().phase.Extra? && Me().phase.batch != []
      requires shared.c.modelOf(Me().phase.next) != shared.c.modelOf(Me().phase.batch[0])
      modifies shared
      ensures Valid() && Onward() && Me().phase == Formed(old(Me().phase.batch))
      ensures Me().deferred == Some(old(Me().phase.next))
    {
      Known();
      Do(Defer);
    }

    /** So does one that died since it was popped, though it is discarded already. */
    method DeferDead()
      requires Valid() && Me().phase.Extra? && Dead(shared.s, Me().phase.next) && Me().phase.batch != []
      modifies shared, `queuedCount, `skipped, `raced, `doubled
      ensures Valid() && Onward() && Me().phase == Formed(old(Me().phase.batch))
      ensures Me().deferred == Some(old(Me().phase.next))
      ensures doubled == old(doubled) + 1 && (old(queuedCount) != 0 ==> skipped == old(skipped) && raced == old(raced))
    {
      Known();
      Discard();
      doubled := doubled + 1;
      Do(Defer);
    }

    method EndForm()
      requires Valid() && Me().phase.Forming? && (Me().lane == [] || |Me().phase.batch| >= shared.c.limits[w].batch)
      modifies shared
      ensures Valid() && Onward() && Me().phase == Formed(old(Me().phase.batch)) && Me().lane == old(Me().lane)
    {
      Do(EndBatch);
    }

    /** `BatchBuilder::form`: takes what follows in the lane, up to the batch size, while the model is the same. A
        batch below that size has left the lane empty, or another request deferred. */
    method Form()
      requires Valid() && Me().phase.Holding?
      modifies shared, `queuedCount, `uncounted, `skipped, `raced, `doubled
      ensures Valid() && Onward() && Me().phase.Formed?
      ensures Fits(shared.c, shared.c.limits[w].batch, Me().phase.batch) && Me().phase.batch[0] == old(Me().phase.first)
      ensures |Me().phase.batch| < shared.c.limits[w].batch ==> Me().lane == [] || Me().deferred.Some?
    {
      Do(BeginBatch);
      while Me().phase.Forming? && |Me().phase.batch| < shared.c.limits[w].batch
        invariant Valid() && Onward() && (Me().phase.Forming? || Me().phase.Formed?)
        invariant [old(Me().phase.first)] <= Me().phase.batch
        invariant Me().phase.Formed? ==> Me().lane == [] || Me().deferred.Some?
        decreases if Me().phase.Forming? then shared.c.limits[w].batch + 1 - |Me().phase.batch| else 0
      {
        Extend();
      }
      if Me().phase.Forming? {
        EndForm();
      }
      Known();
    }

    method Extend()
      requires Valid() && Me().phase.Forming? && |Me().phase.batch| < shared.c.limits[w].batch
      modifies shared, `queuedCount, `uncounted, `skipped, `raced, `doubled
      ensures Valid() && Onward()
      ensures Me().phase.Formed? ==> Me().lane == [] || Me().deferred.Some?
      ensures Me().phase == Formed(old(Me().phase.batch))
           || (Me().phase.Forming? && |Me().phase.batch| == |old(Me().phase.batch)| + 1
               && old(Me().phase.batch) <= Me().phase.batch)
    {
      var found := PopUntil();
      if !found {
        EndForm();
        return;
      }
      Known();
      var dead := IsDead(Me().phase.next, true);
      if dead {
        DeferDead();
      } else if shared.c.modelOf(Me().phase.next) != shared.c.modelOf(Me().phase.batch[0]) {
        DeferNext();
      } else {
        JoinNext();
      }
    }

    // ----- filters -----

    /** Drops the requests found dead, each probed in its turn. */
    method FilterLive(batch: seq<Id>) returns (live: seq<Id>, keep: seq<bool>)
      requires Valid()
      modifies shared, `queuedCount, `uncounted
      ensures Valid() && Onward() && Silent(|old(shared.steps)|)
      ensures Me().phase == old(Me().phase) && Me().deferred == old(Me().deferred)
      ensures MayFilter(shared.s, batch, keep) && live == Kept(batch, keep) && NoneDead(old(shared.s), live)
    {
      live, keep := [], [];
      for i := 0 to |batch|
        invariant NoneDead(old(shared.s), live)
        invariant Valid() && Onward() && Silent(|old(shared.steps)|)
        invariant Me().phase == old(Me().phase) && Me().deferred == old(Me().deferred)
        invariant MayFilter(shared.s, batch[..i], keep) && live == Kept(batch[..i], keep)
      {
        ghost var since := |shared.steps|;
        var dead := IsDead(batch[i], true);
        LaterInRun(shared.c, shared.run, shared.steps, since, |shared.steps|);
        FilteredOne(shared.run[since], shared.s, batch, i, keep, !dead);
        LaterInRun(shared.c, shared.run, shared.steps, |old(shared.steps)|, |shared.steps|);
        if !dead {
          live := live + [batch[i]];
        }
        keep := keep + [!dead];
      }
      assert batch[..|batch|] == batch;
    }

    // ----- executing a batch -----

    predicate Executing()
      requires w < |shared.s.workers|
      reads this, shared
    {
      var p := Me().phase;
      p.Starting? || p.Started? || p.Loaded? || p.Settling? || p.FailingAll?
    }

    /** A step of the execution, which leaves the counter's account alone. */
    method Proceed(a: Act)
      requires Valid() && Executing() && EnabledAct(shared.c, shared.s, a, Me()) && !a.CloseLane?
      modifies shared
      ensures Valid() && Onward() && shared.steps == old(shared.steps) + [Work(w, a)]
      ensures Me() == WorkerAfter(shared.c, old(shared.s), a, old(Me()))
      ensures var l := LivesAfter(shared.c, old(shared.s), a, old(Me()));
              shared.s.lives == l.lives && shared.s.calls == l.calls
    {
      Do(a);
    }

    /** Since then, a request was to be started that had ended. */
    ghost predicate StartMetDead(from: nat)
      reads this, shared
    {
      MetDeadIn(shared.run, shared.steps, w, from)
    }

    /** No start since, no start that met a dead request since. */
    lemma NoneMetDead(from: nat)
      requires NoStarts(from)
      ensures !StartMetDead(from)
    {
    }

    /** The last step was a start; it failed the batch if and only if it met a dead request. */
    lemma LastStart()
      requires Sound() && shared.steps != [] && shared.steps[|shared.steps| - 1] == Work(w, StartOne)
      ensures Me().phase.FailingAll? <==> MetDead(shared.run, shared.steps, w, |shared.steps| - 1)
    {
      StartFailsIffMetDead(shared.c, shared.run, shared.steps, w, |shared.steps| - 1);
    }

    method SkipNext()
      requires Valid() && Me().phase.Starting? && Me().phase.i < |Me().phase.batch|
      requires Dead(shared.s, Me().phase.batch[Me().phase.i])
      modifies shared
      ensures Valid() && Onward() && Silent(|old(shared.steps)|)
      ensures var p := old(Me().phase); Me().phase == Starting(p.batch, p.i + 1)
    {
      Proceed(SkipStart);
    }

    method StartAlive()
      requires Valid() && Me().phase.Starting? && Me().phase.i < |Me().phase.batch|
      modifies shared
      ensures Valid() && Onward() && NoEndings(|old(shared.steps)|)
      ensures var p := old(Me().phase);
              Me().phase == if StartMetDead(|old(shared.steps)|) then FailingAll(p.batch, 0, InvalidStateTransition)
                            else Starting(p.batch, p.i + 1)
    {
      Proceed(StartOne);
      LastStart();
    }

    /** Starts request `i`, unless it is dead. The whole batch fails if and only if it died in between. */
    method StartNext()
      requires Valid() && Me().phase.Starting? && Me().phase.i < |Me().phase.batch|
      modifies shared, `queuedCount, `uncounted
      ensures Valid() && Onward() && NoEndings(|old(shared.steps)|)
      ensures var p := old(Me().phase);
              Me().phase == if StartMetDead(|old(shared.steps)|) then FailingAll(p.batch, 0, InvalidStateTransition)
                            else Starting(p.batch, p.i + 1)
    {
      ghost var from := |shared.steps|;
      var dead := ProbeNext();
      if dead {
        SkipNext();
        NoneMetDead(from);
      } else {
        ghost var run0, steps0 := shared.run, shared.steps;
        NoneMetDead(from);
        StartAlive();
        MetDeadLater(run0, steps0, shared.run, shared.steps, w, from);
      }
    }

    /** The probe of the next request to start; found alive, it may die before it is started. */
    method ProbeNext() returns (dead: bool)
      requires Valid() && Me().phase.Starting? && Me().phase.i < |Me().phase.batch|
      modifies shared, `queuedCount, `uncounted
      ensures Valid() && Onward() && Silent(|old(shared.steps)|) && Me().phase == old(Me().phase)
      ensures dead ==> Dead(shared.s, Me().phase.batch[Me().phase.i])
    {
      dead := IsDead(Me().phase.batch[Me().phase.i], true);
      if !dead {
        Interfere(true);
      }
    }

    /** Starts the batch; it fails if and only if a request has died between its probe and its start. */
    method StartAll() returns (ok: bool)
      requires Valid() && Me().phase.Starting? && Me().phase.i == 0
      modifies shared, `queuedCount, `uncounted
      ensures Valid() && Onward() && NoEndings(|old(shared.steps)|) && (ok <==> !StartMetDead(|old(shared.steps)|))
      ensures var batch := old(Me().phase.batch);
              Me().phase == if ok then Starting(batch, |batch|) else FailingAll(batch, 0, InvalidStateTransition)
    {
      ghost var batch := Me().phase.batch;
      ghost var from := |shared.steps|;
      NoneMetDead(from);
      while Me().phase.Starting? && Me().phase.i < |Me().phase.batch|
        invariant Valid() && Onward() && NoEndings(from)
        invariant if StartMetDead(from) then Me().phase == FailingAll(batch, 0, InvalidStateTransition)
                  else Me().phase.Starting? && Me().phase.batch == batch && Me().phase.i <= |batch|
        decreases if Me().phase.Starting? then |batch| + 1 - Me().phase.i else 0
      {
        ghost var run0, steps0 := shared.run, shared.steps;
        StartNext();
        MetDeadLater(run0, steps0, shared.run, shared.steps, w, from);
      }
      ok := Me().phase.Starting?;
    }

    /** The next request to fail is queued no more when this returns. */
    method StartToFail(r: Id)
      requires Valid() && Me().phase.FailingAll? && Me().phase.i < |Me().phase.batch|
      requires r == Me().phase.batch[Me().phase.i]
      modifies shared, `queuedCount, `uncounted
      ensures Valid() && Onward() && NoStarts(|old(shared.steps)|)
      ensures Me().phase == old(Me().phase) && StateOf(shared.s, r) != Queued
    {
      Interfere(true);
      if StateOf(shared.s, r) == Queued {
        StartQueued(r);
        StillBegun(r);
      }
    }

    method StartQueued(r: Id)
      requires Valid() && Me().phase.FailingAll? && Me().phase.i < |Me().phase.batch|
      requires r == Me().phase.batch[Me().phase.i] && StateOf(shared.s, r) == Queued
      modifies shared
      ensures Valid() && Onward() && NoStarts(|old(shared.steps)|) && Me().phase == old(Me().phase)
      ensures Begun(shared.s, r)
    {
      Proceed(FailStart);
    }

    method StillBegun(r: Id)
      requires Valid() && Begun(shared.s, r)
      modifies shared, `queuedCount, `uncounted
      ensures Valid() && Onward() && NoStarts(|old(shared.steps)|)
      ensures Me().phase == old(Me().phase) && StateOf(shared.s, r) != Queued
    {
      ghost var since := |shared.steps|;
      Interfere(true);
      LaterInRun(shared.c, shared.run, shared.steps, since, |shared.steps|);
    }

    method FailNext()
      requires Valid() && Me().phase.FailingAll? && Me().phase.i < |Me().phase.batch|
      modifies shared, `queuedCount, `uncounted
      ensures Valid() && Onward() && NoStarts(|old(shared.steps)|)
      ensures var p := old(Me().phase); Me().phase == FailingAll(p.batch, p.i + 1, p.error)
    {
      StartToFail(Me().phase.batch[Me().phase.i]);
      Proceed(FailOne);
    }

    method RestoreIdle()
      modifies `busy, `activeCount
      ensures AtRest()
    {
      busy, activeCount := false, 0;
    }

    /** The batch was settled or failed from its first member on; now it is let go. */
    lemma AllAsOwed(from: nat, p: Phase)
      requires Sound() && from < |shared.run| && w < |shared.run[from].workers|
      requires shared.run[from].workers[w].phase == p
      requires Settles(p) && p.i == 0 && Me().phase == Idle
      ensures forall m | 0 <= m < |p.batch| && LeftAlone(from, p.batch[m]) :: LifeOf(shared.s, p.batch[m]) == Owed(p, m)
    {
      forall m | 0 <= m < |p.batch| && LeftAlone(from, p.batch[m]) ensures LifeOf(shared.s, p.batch[m]) == Owed(p, m) {
        EndedAsOwed(shared.c, shared.run, shared.steps, w, from, |shared.steps|, m);
      }
    }

    /** The batch has been settled to the last request. */
    method LetGo()
      requires Valid() && Spent(Me().phase) && Me().phase.i == |Me().phase.batch|
      modifies shared
      ensures Valid() && Onward() && NoStarts(|old(shared.steps)|) && Me().phase == Idle
      ensures Over(shared.s, old(Me().phase.batch))
    {
      Known();
      Proceed(Finish);
    }

    /** Fails every request of the batch that has not ended. */
    method FailAll()
      requires Valid() && Me().phase.FailingAll? && Me().phase.i == 0
      modifies shared, `queuedCount, `uncounted, `busy, `activeCount
      ensures Valid() && Onward() && NoStarts(|old(shared.steps)|) && AtRest() && Me().phase == Idle
      ensures Over(shared.s, old(Me().phase.batch))
      ensures var p := old(Me().phase);
              forall r | r in p.batch && LeftAlone(|old(shared.steps)|, r) :: FailedBy(shared.s, r, p.error)
    {
      RestoreIdle();
      ghost var from, p := |shared.steps|, Me().phase;
      while Me().phase.i < |Me().phase.batch|
        invariant Valid() && Onward() && NoStarts(from) && AtRest()
        invariant Me().phase.FailingAll? && Me().phase == At(p, Me().phase.i) && Me().phase.i <= |p.batch|
        decreases |p.batch| - Me().phase.i
      {
        FailNext();
      }
      LetGo();
      AllAsOwed(from, p);
    }

    method RecordBatch(executed: nat)
      requires Valid() && 1 <= executed <= shared.c.limits[w].batch
      modifies `metrics
      ensures Valid() && metrics.batches == old(metrics.batches) + 1
      ensures metrics.requests == old(metrics.requests) + executed
      ensures metrics.multi == old(metrics.multi) + (if executed > 1 then 1 else 0)
      ensures metrics.largest == if executed > old(metrics.largest) then executed else old(metrics.largest)
    {
      metrics := BatchMetrics(
        metrics.batches + 1, metrics.requests + executed,
        if executed > 1 then metrics.multi + 1 else metrics.multi,
        if executed > metrics.largest then executed else metrics.largest);
    }

    method SettleNext()
      requires Valid() && Me().phase.Settling? && Me().phase.i < |Me().phase.batch| == |Me().phase.results|
      modifies shared, `queuedCount, `uncounted
      ensures Valid() && Onward() && NoStarts(|old(shared.steps)|)
      ensures var p := old(Me().phase); Me().phase == Settling(p.batch, p.results, p.i + 1)
    {
      Interfere(true);
      Proceed(SettleOne);
    }

    /** Each request takes the result of its own place in the batch, unless it has ended. */
    method SettleAll()
      requires Valid() && Me().phase.Settling? && Me().phase.i == 0
      modifies shared, `queuedCount, `uncounted
      ensures Valid() && Onward() && NoStarts(|old(shared.steps)|) && Me().phase == Idle
      ensures Over(shared.s, old(Me().phase.batch))
      ensures var p := old(Me().phase);
              |p.results| == |p.batch| && forall m | 0 <= m < |p.batch| && LeftAlone(|old(shared.steps)|, p.batch[m]) ::
                EndedWith(shared.s, p.batch[m], p.results[m])
    {
      Known();
      ghost var from, p := |shared.steps|, Me().phase;
      while Me().phase.i < |Me().phase.batch|
        invariant Valid() && Onward() && NoStarts(from)
        invariant Me().phase.Settling? && Me().phase == At(p, Me().phase.i) && Me().phase.i <= |p.batch| == |p.results|
        decreases |p.batch| - Me().phase.i
      {
        SettleNext();
      }
      LetGo();
      AllAsOwed(from, p);
    }

    /** A member of the batch that was left alone from `from` on is alive, and with this worker, at `since`. */
    lemma StillAlone(from: nat, since: nat, batch: seq<Id>, r: Id)
      requires Sound() && from <= since <= |shared.steps| && w < |shared.run[from].workers|
      requires InHand(shared.run[from].workers[w].phase) == batch && r in batch && LeftAlone(from, r)
      requires forall n | from <= n < since :: !EndsOne(shared.steps[n], w)
      ensures LeftAlone(since, r)
    {
      HoldsAll(shared.run[from].workers[w]);
      var m :| 0 <= m < |batch| && batch[m] == r;
      assert HeldBy(shared.run[from].workers[w], InHand(shared.run[from].workers[w].phase)[m]) >= 1;
      StaysAlive(shared.c, shared.run, shared.steps, w, from, since, r);
    }

    /** The call, logged with what the backend was sent and what it answered. */
    method InferBatch(reply: Reply)
      requires Valid() && Me().phase.Loaded?
      modifies shared, `queuedCount, `uncounted
      ensures Valid() && Onward() && Silent(|old(shared.steps)|)
      ensures var batch := old(Me().phase.batch);
              Me().phase == if reply.Replied? && |reply.results| == |batch| then Settling(batch, reply.results, 0)
                            else FailingAll(batch, 0, InternalError)
      ensures Call(old(Me().phase.batch), reply.Logged()) in shared.s.calls
    {
      Known();
      Interfere(true);
      Proceed(Infer(reply.Logged()));
    }

    /** Settles the batch with its results, or fails it for want of them. */
    method Conclude(batch: seq<Id>, reply: Reply)
      requires Valid() && 1 <= |batch| <= shared.c.limits[w].batch
      requires Me().phase == if reply.Replied? && |reply.results| == |batch| then Settling(batch, reply.results, 0)
                             else FailingAll(batch, 0, InternalError)
      modifies shared, `queuedCount, `uncounted, `busy, `activeCount, `metrics
      ensures Valid() && Onward() && NoStarts(|old(shared.steps)|) && Me().phase == Idle && AtRest()
      ensures Over(shared.s, batch)
      ensures forall r | r in batch && LeftAlone(|old(shared.steps)|, r) :: AsAnswered(shared.s, r, batch, reply)
    {
      if reply.Replied? {
        RecordBatch(|batch|);
      }
      if reply.Replied? && |reply.results| == |batch| {
        RestoreIdle();
        SettleAll();
      } else {
        FailAll();
      }
    }

    /** Whatever the backend answers, everyone ends; whoever is left alone as the answer says. */
    method InferAndSettle(batch: seq<Id>, reply: Reply)
      requires Valid() && Me().phase == Loaded(batch)
      modifies shared, `queuedCount, `uncounted, `busy, `activeCount, `metrics
      ensures Valid() && Onward() && NoStarts(|old(shared.steps)|) && Me().phase == Idle && AtRest()
      ensures Over(shared.s, batch)
      ensures forall r | r in batch && LeftAlone(|old(shared.steps)|, r) :: AsAnswered(shared.s, r, batch, reply)
      ensures Call(batch, reply.Logged()) in shared.s.calls
    {
      Known();
      ghost var from := |shared.steps|;
      InferBatch(reply);
      ghost var since := |shared.steps|;
      Conclude(batch, reply);
      forall r | r in batch && LeftAlone(from, r) ensures LeftAlone(since, r) {
        StillAlone(from, since, batch, r);
      }
      CallsGrow(shared.c, shared.run, shared.steps, since, |shared.steps|);
    }

    lemma NoneDeadSince(from: nat, since: nat, live: seq<Id>)
      requires Sound() && from <= since <= |shared.steps| && NoneDead(shared.run[since], live)
      ensures NoneDead(shared.run[from], live)
    {
      LaterInRun(shared.c, shared.run, shared.steps, from, since);
    }

    /** Another filter, and on with whoever is left. */
    method EnterLoaded(batch: seq<Id>) returns (live: seq<Id>)
      requires Valid() && Me().phase == Started(batch)
      modifies shared, `queuedCount, `uncounted
      ensures Valid() && Onward() && Silent(|old(shared.steps)|)
      ensures LeftOver(shared.s, batch, live) && NoneDead(old(shared.s), live)
      ensures Me().phase == AfterFilter(live, Loaded(live))
    {
      var keep;
      live, keep := FilterLive(batch);
      Proceed(EndLoad(keep));
      KeptOrDead(shared.s, batch, keep);
    }

    method FailLoad(batch: seq<Id>, residency: Residency)
      requires Valid() && Me().phase == Started(batch) && 1 <= |batch| <= shared.c.limits[w].batch && residency != Ready
      modifies shared, `queuedCount, `uncounted, `busy, `activeCount, `metrics
      ensures Valid() && Onward() && NoStarts(|old(shared.steps)|) && Me().phase == Idle && AtRest()
      ensures Over(shared.s, batch)
      ensures forall r | r in batch && LeftAlone(|old(shared.steps)|, r) ::
                FailedBy(shared.s, r, if residency.Refused? then residency.error else InternalError)
    {
      if residency.Refused? {
        RecordBatch(|batch|);
      }
      ghost var from := |shared.steps|;
      Proceed(BeginFailing(if residency.Refused? then residency.error else InternalError));
      ghost var since := |shared.steps|;
      FailAll();
      forall r | r in batch && LeftAlone(from, r) ensures LeftAlone(since, r) {
        StillAlone(from, since, batch, r);
      }
    }

    /** From a started batch to its end. `final` is what was sent to the backend. */
    method LoadAndInfer(batch: seq<Id>, residency: Residency, reply: Reply) returns (ghost final: seq<Id>)
      requires Valid() && Me().phase == Started(batch)
      modifies shared, `queuedCount, `uncounted, `busy, `activeCount, `metrics
      ensures Valid() && Onward() && NoStarts(|old(shared.steps)|) && Me().phase == Idle && AtRest()
      ensures Over(shared.s, batch)
      ensures forall r | r in batch && LeftAlone(|old(shared.steps)|, r) ::
          AsLoaded(shared.s, r, residency, final, reply)
      ensures final == [] || Call(final, reply.Logged()) in shared.s.calls
      ensures NoneDead(old(shared.s), final)
    {
      Known();
      final := [];
      ghost var from := |shared.steps|;
      Interfere(true);
      ghost var since := |shared.steps|;
      if residency != Ready {
        FailLoad(batch, residency);
        forall r | r in batch && LeftAlone(from, r) ensures LeftAlone(since, r) {
          StillAlone(from, since, batch, r);
        }
        return;
      }
      final := InferLive(batch, reply);
      NoneDeadSince(from, since, final);
      forall r | r in batch && LeftAlone(from, r) ensures LeftAlone(since, r) {
        StillAlone(from, since, batch, r);
      }
    }

    method InferLive(batch: seq<Id>, reply: Reply) returns (ghost final: seq<Id>)
      requires Valid() && Me().phase == Started(batch)
      modifies shared, `queuedCount, `uncounted, `busy, `activeCount, `metrics
      ensures Valid() && Onward() && NoStarts(|old(shared.steps)|) && Me().phase == Idle && AtRest()
      ensures Over(shared.s, batch)
      ensures forall r | r in batch && LeftAlone(|old(shared.steps)|, r) :: AsAnswered(shared.s, r, final, reply)
      ensures final == [] || Call(final, reply.Logged()) in shared.s.calls
      ensures NoneDead(old(shared.s), final)
    {
      ghost var from := |shared.steps|;
      var live := EnterLoaded(batch);
      final := live;
      ghost var since := |shared.steps|;
      if live == [] {
        RestoreIdle();
      } else {
        InferAndSettle(live, reply);
      }
      LaterInRun(shared.c, shared.run, shared.steps, since, |shared.steps|);
      OverAtLast(shared.run[since], shared.s, batch, live);
      forall r | r in batch && LeftAlone(from, r) ensures AsAnswered(shared.s, r, final, reply) {
        StillAlone(from, since, batch, r);
      }
    }

    method EnterStarted(batch: seq<Id>) returns (live: seq<Id>)
      requires Valid() && Me().phase == Starting(batch, |batch|)
      modifies shared, `queuedCount, `uncounted
      ensures Valid() && Onward() && Silent(|old(shared.steps)|)
      ensures LeftOver(shared.s, batch, live) && NoneDead(old(shared.s), live)
      ensures Me().phase == AfterFilter(live, Started(live))
    {
      var keep;
      live, keep := FilterLive(batch);
      Proceed(BeginLoad(keep));
      KeptOrDead(shared.s, batch, keep);
    }

    method LoadLive(batch: seq<Id>, residency: Residency, reply: Reply) returns (ghost final: seq<Id>)
      requires Valid() && Me().phase == Starting(batch, |batch|)
      modifies shared, `queuedCount, `uncounted, `busy, `activeCount, `metrics
      ensures Valid() && Onward() && NoStarts(|old(shared.steps)|) && Me().phase == Idle && AtRest()
      ensures Over(shared.s, batch)
      ensures forall r | r in batch && LeftAlone(|old(shared.steps)|, r) ::
          AsLoaded(shared.s, r, residency, final, reply)
      ensures final == [] || Call(final, reply.Logged()) in shared.s.calls
      ensures NoneDead(old(shared.s), final)
    {
      ghost var from := |shared.steps|;
      var live := EnterStarted(batch);
      final := [];
      ghost var since := |shared.steps|;
      if live == [] {
        RestoreIdle();
      } else {
        final := LoadAndInfer(live, residency, reply);
        NoneDeadSince(from, since, final);
      }
      LaterInRun(shared.c, shared.run, shared.steps, since, |shared.steps|);
      OverAtLast(shared.run[since], shared.s, batch, live);
      forall r | r in batch && LeftAlone(from, r) ensures AsLoaded(shared.s, r, residency, final, reply) {
        StillAlone(from, since, batch, r);
      }
    }

    /** From the start of a batch to its end. */
    method RunBatch(batch: seq<Id>, residency: Residency, reply: Reply) returns (ghost final: seq<Id>)
      requires Valid() && Me().phase == Starting(batch, 0)
      modifies shared, `queuedCount, `uncounted, `busy, `activeCount, `metrics
      ensures Valid() && Onward() && Me().phase == Idle && AtRest() && Over(shared.s, batch)
      ensures forall r | r in batch && LeftAlone(|old(shared.steps)|, r) ::
                AsExecuted(shared.s, r, StartMetDead(|old(shared.steps)|), residency, final, reply)
      ensures final == [] || Call(final, reply.Logged()) in shared.s.calls
      ensures NoneDead(old(shared.s), final)
    {
      ghost var from := |shared.steps|;
      var ok := StartAll();
      ghost var since, run0, steps0 := |shared.steps|, shared.run, shared.steps;
      final := [];
      if ok {
        final := LoadLive(batch, residency, reply);
        NoneDeadSince(from, since, final);
      } else {
        FailAll();
      }
      NoneMetDead(since);
      MetDeadLater(run0, steps0, shared.run, shared.steps, w, from);
      forall r | r in batch && LeftAlone(from, r) ensures AsExecuted(shared.s, r, !ok, residency, final, reply) {
        StillAlone(from, since, batch, r);
      }
    }

    method BeginStarting(batch: seq<Id>, live: seq<Id>, keep: seq<bool>)
      requires Sound() && Me().phase == Formed(batch) && MayFilter(shared.s, batch, keep) && live == Kept(batch, keep)
      modifies shared
      ensures Sound() && Onward() && Silent(|old(shared.steps)|) && shared.s.lives == old(shared.s.lives)
      ensures Me() == old(Me()).(phase := AfterFilter(live, Starting(live, 0)))
    {
      Do(Begin(keep));
    }

    /** The worker is busy with those left; those dropped stay on the counter. */
    method BecomeBusy(batch: seq<Id>, live: seq<Id>, keep: seq<bool>)
      requires Valid() && Me().phase == Formed(batch) && MayFilter(shared.s, batch, keep) && live == Kept(batch, keep)
      modifies shared, `queuedCount, `late, `busy, `activeCount
      ensures Valid() && Onward() && Silent(|old(shared.steps)|) && shared.s.lives == old(shared.s.lives)
      ensures Me() == old(Me()).(phase := AfterFilter(live, Starting(live, 0)))
      ensures if live == [] then busy == old(busy) && activeCount == old(activeCount) else busy && activeCount == |live|
      ensures late == old(late) + |batch| - |live|
    {
      KeptShorter(batch, keep);
      BeginStarting(batch, live, keep);
      late := late + |batch| - |live|;
      queuedCount := queuedCount - |live|;
      if live != [] {
        busy, activeCount := true, |live|;
      }
    }

    /** Whoever dies between the caller's filter and this one stays on the counter. */
    method EnterStarting(batch: seq<Id>) returns (live: seq<Id>)
      requires Valid() && Me().phase == Formed(batch)
      modifies shared, `queuedCount, `uncounted, `late, `busy, `activeCount
      ensures Valid() && Onward() && Silent(|old(shared.steps)|)
      ensures LeftOver(shared.s, batch, live) && NoneDead(old(shared.s), live)
      ensures Me().phase == AfterFilter(live, Starting(live, 0))
      ensures if live == [] then busy == old(busy) && activeCount == old(activeCount) else busy && activeCount == |live|
      ensures late == old(late) + |batch| - |live|
    {
      var keep;
      live, keep := FilterLive(batch);
      KeptOrDead(shared.s, batch, keep);
      BecomeBusy(batch, live, keep);
    }

    /** `execute_batch`, given what the model manager and the backend answer: everyone ends. Whoever its client
        leaves alone ends as the start, the load and the answer for its own place say. */
    method ExecuteBatch(batch: seq<Id>, residency: Residency, reply: Reply) returns (ghost final: seq<Id>)
      requires Valid() && AtRest() && Me().phase == Formed(batch)
      modifies shared, `queuedCount, `uncounted, `late, `busy, `activeCount, `metrics
      ensures Valid() && Onward() && Me().phase == Idle && AtRest()
      ensures Over(shared.s, batch) && forall r | r in batch :: OwnResult(shared.s, r)
      ensures forall r | r in batch && LeftAlone(|old(shared.steps)|, r) ::
                AsExecuted(shared.s, r, StartMetDead(|old(shared.steps)|), residency, final, reply)
      ensures final == [] || Call(final, reply.Logged()) in shared.s.calls
      ensures NoneDead(old(shared.s), final)
    {
      ghost var from := |shared.steps|;
      var live := EnterStarting(batch);
      final := [];
      ghost var since, run0, steps0 := |shared.steps|, shared.run, shared.steps;
      NoneMetDead(from);
      if live != [] {
        final := RunBatch(live, residency, reply);
        NoneDeadSince(from, since, final);
      }
      LaterInRun(shared.c, shared.run, shared.steps, since, |shared.steps|);
      OverAtLast(shared.run[since], shared.s, batch, live);
      MetDeadLater(run0, steps0, shared.run, shared.steps, w, from);
      forall r | r in batch && LeftAlone(from, r)
        ensures AsExecuted(shared.s, r, StartMetDead(from), residency, final, reply)
      {
        StillAlone(from, since, batch, r);
      }
      OwnResults(batch);
    }

    lemma OwnResults(batch: seq<Id>)
      requires Sound()
      ensures forall r | r in batch :: OwnResult(shared.s, r)
    {
      forall r | r in batch ensures OwnResult(shared.s, r) {
        CompletedHoldsOwnResult(shared.c, shared.run, shared.steps, |shared.steps|, r);
      }
    }

    // ----- the loop -----

    /** The deferred request goes first; else the lane is waited on. */
    method TakeFirstRequest() returns (ended: bool)
      requires Valid() && Me().phase == Idle
      modifies shared, `queuedCount, `uncounted
      ensures Valid() && Onward()
      ensures if ended then Me().phase == Ended && Me().lane == [] && Me().deferred.None? && Me().closed
              else Me().phase == Idle || Me().phase.Holding?
      ensures old(Me().deferred).Some? ==> Me().phase == Holding(old(Me().deferred).value)
      ensures old(Me().deferred).None? && old(Me().lane) != [] ==> Me().phase == Holding(old(Me().lane)[0])
    {
      ended := false;
      if Me().deferred.Some? {
        Do(TakeDeferred);
        return;
      }
      Interfere(true);
      if Me().lane != [] {
        Do(TakeFirst);
      } else if Me().closed {
        Do(EndWorker);
        ended := true;
      }
    }

    method DropFirstRequest()
      requires Valid() && Me().phase.Holding? && Dead(shared.s, Me().phase.first)
      modifies shared, `queuedCount, `skipped, `raced
      ensures Valid() && Onward() && Me().phase == Idle && Dead(shared.s, old(Me().phase.first))
    {
      Do(DropFirst);
      Discard();
    }

    method FilterFormed(batch: seq<Id>) returns (live: seq<Id>)
      requires Valid() && Me().phase == Formed(batch)
      modifies shared, `queuedCount, `uncounted
      ensures Valid() && Onward() && LeftOver(shared.s, batch, live) && NoneDead(old(shared.s), live)
      ensures Me().phase == AfterFilter(live, Formed(live))
    {
      var keep;
      live, keep := FilterLive(batch);
      Do(Filter(keep));
      KeptShorter(batch, keep);
      KeptOrDead(shared.s, batch, keep);
      queuedCount := queuedCount - (|batch| - |live|);
    }

    /** One pass of `run_loop`: whoever waits first has ended by its end. A lane that stays empty and open is waited
        on in the next. */
    method Iterate() returns (running: bool)
      requires Valid() && AtRest() && Me().phase == Idle
      modifies shared, `queuedCount, `uncounted, `skipped, `raced, `doubled, `late, `busy, `activeCount, `metrics
      ensures Valid() && Onward() && AtRest()
      ensures if running then Me().phase == Idle else Me().phase == Ended && Me().lane == [] && Me().deferred.None?
      ensures old(Me().deferred).Some? ==> Dead(shared.s, old(Me().deferred).value)
      ensures old(Me().deferred).None? && old(Me().lane) != [] ==> Dead(shared.s, old(Me().lane)[0])
    {
      var ended := TakeFirstRequest();
      if Me().phase.Holding? {
        var dead := IsDead(Me().phase.first, true);
        if dead {
          DropFirstRequest();
        } else {
          FormAndExecute();
        }
      }
      running := !ended;
    }

    method FormAndExecute()
      requires Valid() && AtRest() && Me().phase.Holding?
      modifies shared, `queuedCount, `uncounted, `skipped, `raced, `doubled, `late, `busy, `activeCount, `metrics
      ensures Valid() && Onward() && AtRest() && Me().phase == Idle && Dead(shared.s, old(Me().phase.first))
    {
      Form();
      var batch := Me().phase.batch;
      var live := FilterFormed(batch);
      ghost var since := |shared.steps|;
      if live != [] {
        var residency: Residency, reply: Reply := *, *;
        ghost var final := ExecuteBatch(live, residency, reply);
      }
      LaterInRun(shared.c, shared.run, shared.steps, since, |shared.steps|);
      OverAtLast(shared.run[since], shared.s, batch, live);
    }

    /** The whole of `run_loop`, however many passes it takes. The counter is exact if and only if what was
        never subtracted and what was subtracted twice, or not counted yet, balance. */
    method RunLoop() returns (ended: bool)
      requires Valid() && AtRest() && Me().phase == Idle
      modifies shared, `queuedCount, `uncounted, `skipped, `raced, `doubled, `late, `busy, `activeCount, `metrics
      ensures Valid() && Onward() && AtRest()
      ensures queuedCount == |Me().lane| + Size(Me().deferred)
         <==> late + skipped + raced == doubled + (if uncounted then 1 else 0)
      ensures late == 0 && doubled == 0 && raced == 0 && !uncounted ==> queuedCount == |Me().lane| + Size(Me().deferred)
      ensures ended ==> Me().phase == Ended && Me().lane == [] && Me().deferred.None?
    {
      var passes: nat := *;
      ended := false;
      while !ended && passes > 0
        invariant Valid() && Onward() && AtRest()
        invariant if ended then Me().phase == Ended && Me().lane == [] && Me().deferred.None? else Me().phase == Idle
      {
        passes := passes - 1;
        var running := Iterate();
        ended := !running;
      }
    }
  }
}
