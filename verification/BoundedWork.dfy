/**
 The size and shape of what is held, in every run: batches are never empty, never too large and
 of one model; a deferred request leaves room in the batch beside it; so the requests inside the
 system never number more than its capacities.
 */
module BoundedWork {
  import opened Types
  import opened Protocol
  import opened Ownership
  import opened Places
  import opened Delivery

  /** A batch of one model, not empty and of at most `size` requests. */
  predicate Fits(c: Config, size: nat, batch: seq<Id>) {
    0 < |batch| <= size && forall i | 0 <= i < |batch| :: c.modelOf(batch[i]) == c.modelOf(batch[0])
  }

  predicate PhaseFits(c: Config, size: nat, p: Phase) {
    match p
    case Idle => true
    case Ended => true
    case Holding(_) => true
    case Extra(batch, _) => |batch| < size && Fits(c, size, batch)
    case _ => Fits(c, size, p.batch)
  }

  function Size(o: Option<Id>): nat {
    if o.Some? then 1 else 0
  }

  /** A worker keeps its own limits. */
  predicate WorkerFits(c: Config, k: Worker) {
    && PhaseFits(c, k.limits.batch, k.phase)
    && |InHand(k.phase)| + Size(k.deferred) <= k.limits.batch
    && |k.lane| <= k.limits.queue
    && (k.phase.Ended? ==> k.lane == [] && k.deferred.None? && k.closed)
  }

  ghost predicate AllFit(c: Config, s: State) {
    && |s.workers| == |c.limits| && |s.scheduled| <= c.capacity
    && (forall w | 0 <= w < |s.workers| :: s.workers[w].limits == c.limits[w] && WorkerFits(c, s.workers[w]))
    && (forall n | 0 <= n < |s.calls| :: FitsSome(c, s.calls[n].batch))
  }

  /** The batch keeps the limit of one of the workers: the one that sent it. */
  ghost predicate FitsSome(c: Config, batch: seq<Id>) {
    exists w :: 0 <= w < |c.limits| && Fits(c, c.limits[w].batch, batch)
  }

  // ----- what a worker's step keeps -----

  lemma {:induction false} KeptShorter(batch: seq<Id>, keep: seq<bool>)
    requires |keep| == |batch|
    ensures |Kept(batch, keep)| <= |batch|
  {
    if batch != [] {
      KeptShorter(batch[..|batch| - 1], keep[..|batch| - 1]);
    }
  }

  lemma KeptFits(c: Config, s: State, size: nat, batch: seq<Id>, keep: seq<bool>)
    requires MayFilter(s, batch, keep) && Fits(c, size, batch) && Kept(batch, keep) != []
    ensures Fits(c, size, Kept(batch, keep))
  {
    KeptShorter(batch, keep);
    forall j | 0 <= j < |Kept(batch, keep)| ensures c.modelOf(Kept(batch, keep)[j]) == c.modelOf(batch[0]) {
      KeptFrom(s, batch, keep, j);
    }
  }

  lemma FilterFits(c: Config, s: State, a: Act, k: Worker)
    requires Filters(a) && EnabledAct(c, s, a, k) && WorkerFits(c, k)
    ensures WorkerFits(c, WorkerAfter(c, s, a, k))
  {
    KeptShorter(k.phase.batch, a.keep);
    if Kept(k.phase.batch, a.keep) != [] {
      KeptFits(c, s, k.limits.batch, k.phase.batch, a.keep);
    }
  }

  lemma GatherFits(c: Config, s: State, a: Act, k: Worker)
    requires k.limits.batch >= 1 && Gathers(a) && EnabledAct(c, s, a, k) && WorkerFits(c, k) && DeferredOk(k)
    ensures WorkerFits(c, WorkerAfter(c, s, a, k))
  {
  }

  lemma ExecuteFits(c: Config, s: State, a: Act, k: Worker)
    requires !Gathers(a) && !Filters(a) && EnabledAct(c, s, a, k) && WorkerFits(c, k)
    ensures WorkerFits(c, WorkerAfter(c, s, a, k))
  {
  }

  lemma ActFitsWorker(c: Config, s: State, a: Act, k: Worker)
    requires k.limits.batch >= 1 && EnabledAct(c, s, a, k) && WorkerFits(c, k) && DeferredOk(k)
    ensures var k' := WorkerAfter(c, s, a, k); WorkerFits(c, k') && k'.limits == k.limits
  {
    if Gathers(a) {
      GatherFits(c, s, a, k);
    } else if Filters(a) {
      FilterFits(c, s, a, k);
    } else {
      ExecuteFits(c, s, a, k);
    }
  }

  lemma CallsFit(c: Config, s: State, w: nat, a: Act)
    requires Enabled(c, s, Work(w, a)) && AllFit(c, s)
    ensures var s' := After(c, s, Work(w, a)); forall n | 0 <= n < |s'.calls| :: FitsSome(c, s'.calls[n].batch)
  {
    CallsStep(c, s, Work(w, a));
    assert a.Infer? ==> Fits(c, c.limits[w].batch, s.workers[w].phase.batch);
  }

  lemma WorkFits(c: Config, s: State, w: nat, a: Act)
    requires WellConfigured(c) && Enabled(c, s, Work(w, a)) && AllFit(c, s) && PlacesOk(s)
    ensures AllFit(c, After(c, s, Work(w, a)))
  {
    var k := s.workers[w];
    assert WorkerOk(s, k);
    ActFitsWorker(c, s, a, k);
    CallsFit(c, s, w, a);
    LivesKeepDead(c, s, a, k, 0);
  }

  lemma RouteFits(c: Config, s: State, t: Step)
    requires Enabled(c, s, t) && !t.Work? && AllFit(c, s)
    ensures AllFit(c, After(c, s, t))
  {
    CallsStep(c, s, t);
  }

  lemma {:induction false} FitsInRun(c: Config, run: seq<State>, steps: seq<Step>, i: nat)
    requires WellConfigured(c) && Protocol.Run(c, run, steps) && i < |run|
    ensures AllFit(c, run[i])
  {
    if i > 0 {
      assert StepAt(c, run, steps, i - 1);
      FitsInRun(c, run, steps, i - 1);
      SingleOwnership(c, run, steps, i - 1);
      if steps[i - 1].Work? {
        WorkFits(c, run[i - 1], steps[i - 1].w, steps[i - 1].act);
      } else {
        RouteFits(c, run[i - 1], steps[i - 1]);
      }
    }
  }

  // ----- the bound -----

  function Load(ws: seq<Worker>): nat {
    if ws == [] then 0
    else var k := ws[|ws| - 1]; Load(ws[..|ws| - 1]) + |InHand(k.phase)| + Size(k.deferred) + |k.lane|
  }

  /** What all workers together may hold. */
  function Sum(limits: seq<Limits>): nat {
    if limits == [] then 0
    else var l := limits[|limits| - 1]; Sum(limits[..|limits| - 1]) + l.queue + l.batch
  }

  lemma {:induction false} LoadBounded(c: Config, ws: seq<Worker>, limits: seq<Limits>)
    requires |ws| == |limits| && forall w | 0 <= w < |ws| :: ws[w].limits == limits[w] && WorkerFits(c, ws[w])
    ensures Load(ws) <= Sum(limits)
  {
    if ws != [] {
      var n := |ws| - 1;
      LoadBounded(c, ws[..n], limits[..n]);
      assert WorkerFits(c, ws[n]);
    }
  }

  lemma WorkHeldIsBounded(c: Config, run: seq<State>, steps: seq<Step>, i: nat)
    requires WellConfigured(c) && Protocol.Run(c, run, steps) && i < |run|
    ensures |run[i].scheduled| + Size(run[i].hand) + Load(run[i].workers) <= c.capacity + 1 + Sum(c.limits)
  {
    FitsInRun(c, run, steps, i);
    LoadBounded(c, run[i].workers, c.limits);
  }
}
